/** Chunked prefill: how many tokens of a group run in a step, and what any number of such steps make of the group. */
module Chunks {
  import opened Sequences
  import opened GroupStates
  import opened Queues
  import opened Rosters
  import opened Outputs
  import opened Budget

  function Min(a: int, b: int): int { if a < b then a else b }

  /** What `_get_num_new_tokens` returns: a lone member's tokens may be cut to what is left of the budget. */
  function NumNewTokens(g: SequenceGroup, status: Status, chunking: bool, remaining: int): int {
    var n := NewTokens(g.WithStatus(status));
    if chunking && |g.WithStatus(status)| == 1 then Min(n, remaining) else n
  }

  /** `_get_num_new_tokens` (scheduler.py:1092-1113). */
  method GetNumNewTokens(g: SequenceGroup, status: Status, enableChunking: bool, budget: SchedulingBudget) returns (numNewTokens: int)
    ensures numNewTokens == NumNewTokens(g, status, enableChunking, budget.RemainingTokenBudget())
    ensures enableChunking && |g.WithStatus(status)| == 1 ==> budget.numBatchedTokens + numNewTokens <= budget.tokenBudget
    ensures numNewTokens == NewTokens(g.WithStatus(status)) || budget.numBatchedTokens + numNewTokens == budget.tokenBudget
  {
    hide NewTokens, SequenceGroup.WithStatus;
    numNewTokens := 0;
    var seqs := g.WithStatus(status);
    NoTokens();
    for i := 0 to |seqs|
      invariant numNewTokens == NewTokens(seqs[..i])
    {
      assert seqs[..i + 1] == seqs[..i] + [seqs[i]];
      TokensGrow(seqs[..i], seqs[i]);
      numNewTokens := numNewTokens + seqs[i].NumNewTokens();
    }
    assert seqs[..|seqs|] == seqs;
    if enableChunking && |seqs| == 1 {
      numNewTokens := Min(numNewTokens, budget.RemainingTokenBudget());
    }
  }

  lemma NoTokens()
    ensures NewTokens([]) == 0
  {
  }

  lemma {:induction false} TokensGrow(seqs: seq<Sequence>, s: Sequence)
    ensures NewTokens(seqs + [s]) == NewTokens(seqs) + s.NumNewTokens()
  {
    if seqs == [] {
      assert [s][1..] == [] && [] + [s] == [s];
    } else {
      assert (seqs + [s])[1..] == seqs[1..] + [s];
      TokensGrow(seqs[1..], s);
    }
  }

  // ---- one step -----------------------------------------------------------------------------------------------

  /** `SequenceGroup.is_prefill` (sequence.py:542-544) asks the first member. */
  predicate IsPrefill(g: SequenceGroup) {
    g.seqs != [] && g.seqs[0].stage.Prefill?
  }

  /** A step that runs a group, taken from the waiting queue or from the running one, with `remaining` tokens of the budget
      left, and the tokens that the model samples. */
  datatype Round = Round(fromRunning: bool, remaining: nat, sample: int -> Sampled)

  /** `token_chunk_size` (scheduler.py:428-437, 663-666): a running group that does not call itself a prefill gets 1. */
  function Chunk(g: SequenceGroup, r: Round): nat {
    var n := NumNewTokens(g, Running, true, r.remaining);
    if r.fromRunning && !IsPrefill(g) then 1 else if n < 0 then 0 else n
  }

  /** The counters move by the chunk; sampled tokens are processed only when every member decodes (llm_engine.py:478-489). */
  function Processed(g: SequenceGroup, chunk: nat, sample: int -> Sampled): SequenceGroup {
    var advanced := AdvanceAll(g.seqs, chunk);
    g.(seqs := if AllDecode(advanced) then EmitAll(advanced, sample) else advanced)
  }

  function AfterRounds(g: SequenceGroup, rounds: seq<Round>): SequenceGroup {
    if rounds == [] then g
    else
      var before, r := AfterRounds(g, rounds[..|rounds| - 1]), rounds[|rounds| - 1];
      Processed(before, Chunk(before, r), r.sample)
  }

  // ---- a prefill in chunks ------------------------------------------------------------------------------------

  /** One live member with tokens to compute; the finished ones were decoding. */
  ghost predicate Prefilling(g: SequenceGroup) {
    && DistinctIds(g.seqs) && |Unfinished(g.seqs)| == 1
    && (forall s | s in g.seqs && s.IsFinished() :: s.stage.Decode?)
    && (forall s | s in g.seqs && !s.IsFinished() :: s.status == Running && s.stage.Prefill? && s.numComputed < |s.tokens|)
  }

  ghost function Remainder(g: SequenceGroup): nat
    requires Prefilling(g)
  {
    UnfinishedIsSubsequence(g.seqs);
    var s := Unfinished(g.seqs)[0];
    assert s in Unfinished(g.seqs);
    |s.tokens| - s.numComputed
  }

  /** The group with `done` more tokens computed. */
  function Computed(g: SequenceGroup, done: nat): SequenceGroup { g.(seqs := AdvanceAll(g.seqs, done)) }

  /** What a round may compute at most: all that is left of the budget, but one token of a running group whose first member
      has finished. */
  function Allowance(g: SequenceGroup, r: Round): nat {
    if r.fromRunning && !IsPrefill(g) then 1 else r.remaining
  }

  function Allowed(g: SequenceGroup, rounds: seq<Round>): nat {
    if rounds == [] then 0 else Allowed(g, rounds[..|rounds| - 1]) + Allowance(g, rounds[|rounds| - 1])
  }

  lemma SoleMember(g: SequenceGroup)
    requires Prefilling(g)
    ensures var only := Unfinished(g.seqs)[0];
      && only in g.seqs && !only.IsFinished() && g.WithStatus(Running) == Unfinished(g.seqs) == [only]
      && (forall s | s in g.seqs :: if s.IsFinished() then s != only else s == only)
      && NewTokens(g.WithStatus(Running)) == Remainder(g) > 0
  {
    OnlyLive(g.seqs);
    SelectLive(g.seqs, Running);
    var only := Unfinished(g.seqs)[0];
    assert Unfinished(g.seqs) == [only] && [only][1..] == [];
  }

  lemma {:induction false} AdvanceKeepsLive(seqs: seq<Sequence>, chunk: nat)
    ensures Unfinished(AdvanceAll(seqs, chunk)) == AdvanceAll(Unfinished(seqs), chunk)
  {
    if seqs != [] {
      AdvanceKeepsLive(seqs[1..], chunk);
      LiveFirst(seqs);
      LiveFirst(AdvanceAll(seqs, chunk));
      assert AdvanceAll(seqs, chunk)[1..] == AdvanceAll(seqs[1..], chunk);
      if !seqs[0].IsFinished() {
        assert Unfinished(seqs)[1..] == Unfinished(seqs[1..]);
      }
    }
  }

  lemma LiveFirst(seqs: seq<Sequence>)
    requires seqs != []
    ensures Unfinished(seqs) == (if seqs[0].IsFinished() then [] else [seqs[0]]) + Unfinished(seqs[1..])
  {
  }

  /** Part of the way, it is still the same prefill with less to do. */
  lemma ComputedIs(g: SequenceGroup, done: nat)
    requires Prefilling(g) && done < Remainder(g)
    ensures Prefilling(Computed(g, done)) && Remainder(Computed(g, done)) == Remainder(g) - done
    ensures IsPrefill(Computed(g, done)) <==> IsPrefill(g)
    ensures !AllDecode(Computed(g, done).seqs)
  {
    hide DistinctIds, Unfinished;
    var c, only := Computed(g, done), Unfinished(g.seqs)[0];
    SoleMember(g);
    SameMembers(g.seqs, c.seqs);
    AdvanceKeepsLive(g.seqs, done);
    assert Unfinished(c.seqs) == [Advanced(only, done)];
    UnfinishedIsSubsequence(c.seqs);
    assert Advanced(only, done) in Unfinished(c.seqs);
    forall s | s in c.seqs
      ensures if s.IsFinished() then s.stage.Decode? else s.status == Running && s.stage.Prefill? && s.numComputed < |s.tokens|
    {
      var i :| 0 <= i < |c.seqs| && c.seqs[i] == s;
      assert g.seqs[i] in g.seqs;
    }
    assert g.seqs != [] ==> g.seqs[0] in g.seqs;
  }

  lemma AdvanceTwice(g: SequenceGroup, a: nat, b: nat)
    requires Prefilling(g) && a < Remainder(g)
    ensures AdvanceAll(AdvanceAll(g.seqs, a), b) == AdvanceAll(g.seqs, a + b)
  {
    SoleMember(g);
    forall i | 0 <= i < |g.seqs| ensures AdvanceAll(AdvanceAll(g.seqs, a), b)[i] == AdvanceAll(g.seqs, a + b)[i] {
      assert g.seqs[i] in g.seqs;
    }
  }

  /** With the whole remainder computed every member decodes. */
  lemma Completes(g: SequenceGroup, chunk: nat)
    requires Prefilling(g) && chunk <= Remainder(g)
    ensures NoOverflow(g.seqs, chunk)
    ensures chunk == Remainder(g) ==> AllDecode(AdvanceAll(g.seqs, chunk))
  {
    SoleMember(g);
    var a := AdvanceAll(g.seqs, chunk);
    if chunk == Remainder(g) {
      forall s | s in a ensures s.stage.Decode? {
        var i :| 0 <= i < |a| && a[i] == s;
        assert g.seqs[i] in g.seqs;
      }
    }
  }

  lemma ChunkIs(g: SequenceGroup, r: Round)
    requires Prefilling(g) && r.remaining > 0
    ensures Chunk(g, r) == Min(Remainder(g), Allowance(g, r)) > 0
  {
    SoleMember(g);
  }

  lemma NothingComputed(g: SequenceGroup)
    requires Prefilling(g)
    ensures Computed(g, 0) == g
  {
    assert forall i | 0 <= i < |g.seqs| :: g.seqs[i] in g.seqs;
    assert AdvanceAll(g.seqs, 0) == g.seqs;
  }

  lemma SameAllowance(g: SequenceGroup, h: SequenceGroup, r: Round)
    requires IsPrefill(g) <==> IsPrefill(h)
    ensures Allowance(g, r) == Allowance(h, r)
  {
  }

  lemma ProcessedPart(g: SequenceGroup, chunk: nat, sample: int -> Sampled)
    requires !AllDecode(AdvanceAll(g.seqs, chunk))
    ensures Processed(g, chunk, sample) == Computed(g, chunk)
  {
  }

  lemma ProcessedWhole(g: SequenceGroup, chunk: nat, sample: int -> Sampled)
    requires AllDecode(AdvanceAll(g.seqs, chunk))
    ensures Processed(g, chunk, sample) == Produced(g, chunk, sample)
  {
  }

  /** A part of what is left to compute, or all of it. */
  lemma ProcessedIs(g: SequenceGroup, done: nat, chunk: nat, sample: int -> Sampled)
    requires Prefilling(g) && done < Remainder(g) && done + chunk <= Remainder(g)
    ensures Processed(Computed(g, done), chunk, sample)
            == if done + chunk < Remainder(g) then Computed(g, done + chunk) else Produced(g, Remainder(g), sample)
  {
    hide Prefilling, Remainder, AllDecode, EmitAll, AdvanceAll;
    AdvanceTwice(g, done, chunk);
    if done + chunk < Remainder(g) {
      ComputedIs(g, done + chunk);
      ProcessedPart(Computed(g, done), chunk, sample);
    } else {
      Completes(g, done + chunk);
      ProcessedWhole(Computed(g, done), chunk, sample);
    }
  }

  /** One round on a prefill of which `done` tokens are computed. */
  lemma RoundIs(g: SequenceGroup, done: nat, r: Round)
    requires Prefilling(g) && done < Remainder(g) && r.remaining > 0
    ensures var before, all := Computed(g, done), done + Allowance(g, r);
      && NoOverflow(before.seqs, Chunk(before, r)) && Chunk(before, r) > 0
      && Processed(before, Chunk(before, r), r.sample)
         == if all < Remainder(g) then Computed(g, all) else Produced(g, Remainder(g), r.sample)
  {
    hide Prefilling, Remainder, Chunk, NoOverflow, Processed, Produced, Computed, Allowance, IsPrefill;
    var before := Computed(g, done);
    ComputedIs(g, done);
    ChunkIs(before, r);
    SameAllowance(g, before, r);
    Completes(before, Chunk(before, r));
    ProcessedIs(g, done, Chunk(before, r), r.sample);
  }

  /** Whatever is left of the budget at each step, a prefill in chunks is the whole prefill: as long as the rounds allow fewer
      tokens than there are to compute, only the counter has moved; with the round in which they suffice, the group is what
      one step on all its tokens makes of it, and only the token sampled in that round is processed.  No counter overflows. */
  lemma {:induction false} PrefillRuns(g: SequenceGroup, rounds: seq<Round>)
    requires Prefilling(g) && forall r | r in rounds :: r.remaining > 0
    ensures Allowed(g, rounds) < Remainder(g) ==> AfterRounds(g, rounds) == Computed(g, Allowed(g, rounds))
    ensures rounds != [] && Allowed(g, rounds[..|rounds| - 1]) < Remainder(g) ==>
      && var before, r := AfterRounds(g, rounds[..|rounds| - 1]), rounds[|rounds| - 1];
      && NoOverflow(before.seqs, Chunk(before, r)) && Chunk(before, r) > 0
      && (Allowed(g, rounds) >= Remainder(g) ==> AfterRounds(g, rounds) == Produced(g, Remainder(g), r.sample))
  {
    hide Prefilling, Remainder, Chunk, Processed, Computed, Produced, NoOverflow, Allowance;
    if rounds == [] {
      NothingComputed(g);
    } else {
      var front, r := rounds[..|rounds| - 1], rounds[|rounds| - 1];
      PrefillRuns(g, front);
      if Allowed(g, front) < Remainder(g) {
        assert r in rounds;
        RoundIs(g, Allowed(g, front), r);
      }
    }
  }

  /** Every member decodes after exactly those rounds that complete the prefill, and after none before. */
  lemma DecodesIff(g: SequenceGroup, rounds: seq<Round>)
    requires Prefilling(g) && forall r | r in rounds :: r.remaining > 0
    requires rounds != [] && Allowed(g, rounds[..|rounds| - 1]) < Remainder(g)
    ensures AllDecode(AfterRounds(g, rounds).seqs) <==> Allowed(g, rounds) >= Remainder(g)
  {
    hide Prefilling, Remainder, AfterRounds, Computed, Allowance;
    PrefillRuns(g, rounds);
    if Allowed(g, rounds) < Remainder(g) {
      ComputedIs(g, Allowed(g, rounds));
    } else {
      Completes(g, Remainder(g));
      EmittedDecode(AdvanceAll(g.seqs, Remainder(g)), rounds[|rounds| - 1].sample);
    }
  }

  lemma EmittedDecode(seqs: seq<Sequence>, sample: int -> Sampled)
    requires AllDecode(seqs)
    ensures AllDecode(EmitAll(seqs, sample))
  {
    var e := EmitAll(seqs, sample);
    forall s | s in e ensures s.stage.Decode? {
      var i :| 0 <= i < |e| && e[i] == s;
      assert seqs[i] in seqs;
    }
  }

  // ---- whole runs ---------------------------------------------------------------------------------------------

  /** A running group between two steps, in any mode. */
  ghost predicate Counted(g: SequenceGroup) {
    Prefilling(g) || (Decoding(g) && AllLive(g, Running))
  }

  /** A group with one live member that has been preempted, by which its count starts again, and is scheduled once more. */
  function Restarted(g: SequenceGroup): SequenceGroup { Restated(Preempted(g), Waiting, Running) }

  datatype Event = Run(round: Round) | Restart

  /** Only a prefill is taken from the waiting queue, some of the budget is left for a group that runs, and only a group
      with one live member is preempted by recomputation. */
  ghost predicate Legal(g: SequenceGroup, e: Event) {
    match e
    case Run(r) => r.remaining > 0 && (r.fromRunning || Prefilling(g))
    case Restart => DistinctIds(g.seqs) && |Unfinished(g.seqs)| == 1
  }

  function After(g: SequenceGroup, e: Event): SequenceGroup {
    match e
    case Run(r) => Processed(g, Chunk(g, r), r.sample)
    case Restart => Restarted(g)
  }

  lemma RestartedLength(g: SequenceGroup)
    ensures |Restarted(g).seqs| == |g.seqs|
  {
  }

  lemma RestartedMember(g: SequenceGroup, i: nat)
    requires i < |g.seqs| && (g.seqs[i].IsFinished() || g.seqs[i].status == Running)
    ensures |Restarted(g).seqs| == |g.seqs|
    ensures Restarted(g).seqs[i] == if g.seqs[i].IsFinished() then g.seqs[i] else Reset(g.seqs[i]).(status := Running)
  {
  }

  lemma CountedMember(g: SequenceGroup, s: Sequence)
    requires Counted(g) && s in g.seqs
    ensures if s.IsFinished() then s.stage.Decode? else s.status == Running && s.tokens != []
  {
  }

  /** The count of a group preempted in the middle of its prefill or later starts again, over its output tokens as well. */
  lemma RestartIs(g: SequenceGroup)
    requires Counted(g) && DistinctIds(g.seqs) && |Unfinished(g.seqs)| == 1
    ensures Prefilling(Restarted(g)) && Remainder(Restarted(g)) == |Unfinished(g.seqs)[0].tokens|
  {
    hide DistinctIds, Unfinished, Counted, Restarted;
    var r := Restarted(g);
    RestartedLength(g);
    forall i | 0 <= i < |g.seqs|
      ensures if g.seqs[i].IsFinished() then r.seqs[i] == g.seqs[i] && g.seqs[i].stage.Decode?
              else r.seqs[i] == Reset(g.seqs[i]).(status := Running) && g.seqs[i].tokens != []
    {
      CountedMember(g, g.seqs[i]);
      RestartedMember(g, i);
    }
    SameMembers(g.seqs, r.seqs);
    LiveKeep(g.seqs, r.seqs);
    forall s | s in r.seqs
      ensures if s.IsFinished() then s.stage.Decode? else s.status == Running && s.stage.Prefill? && s.numComputed == 0 < |s.tokens|
    {
      var i :| 0 <= i < |r.seqs| && r.seqs[i] == s;
      assert g.seqs[i].IsFinished() <==> s.IsFinished();
    }
    UnfinishedIsSubsequence(r.seqs);
    assert Unfinished(r.seqs)[0] in Unfinished(r.seqs);
  }

  /** A member that the chunk completes goes on decoding, if at all. */
  lemma MemberGoesOn(s: Sequence, chunk: nat, o: Sampled)
    requires s.numComputed + chunk == |s.tokens| && s.status == Running
    ensures var p := Emitted(Advanced(s, chunk), o);
      p.stage.Decode? && (!p.IsFinished() ==> p.status == Running && p.numComputed + 1 == |p.tokens|)
  {
  }

  lemma ProducedCounted(g: SequenceGroup, chunk: nat, sample: int -> Sampled)
    requires forall s | s in g.seqs ::
      if s.IsFinished() then s.stage.Decode? else s.status == Running && s.numComputed + chunk == |s.tokens|
    ensures Counted(Produced(g, chunk, sample)) && NoOverflow(g.seqs, chunk)
    ensures Processed(g, chunk, sample) == Produced(g, chunk, sample)
  {
    hide Produced, Emitted, Advanced, Prefilling;
    var p, a := Produced(g, chunk, sample), AdvanceAll(g.seqs, chunk);
    ProducedMembers(g, chunk, sample);
    forall s | s in p.seqs
      ensures s.stage.Decode? && (s.IsFinished() || s.status == Running) && (!s.IsFinished() ==> s.numComputed + 1 == |s.tokens|)
    {
      var i :| 0 <= i < |p.seqs| && p.seqs[i] == s;
      assert g.seqs[i] in g.seqs;
      if !g.seqs[i].IsFinished() {
        MemberGoesOn(g.seqs[i], chunk, sample(g.seqs[i].id));
      }
    }
    AllAdvanced(g.seqs, chunk);
    ProcessedWhole(g, chunk, sample);
  }

  lemma AllAdvanced(seqs: seq<Sequence>, chunk: nat)
    requires forall s | s in seqs :: if s.IsFinished() then s.stage.Decode? else s.numComputed + chunk == |s.tokens|
    ensures AllDecode(AdvanceAll(seqs, chunk)) && NoOverflow(seqs, chunk)
  {
    var a := AdvanceAll(seqs, chunk);
    forall s | s in a ensures s.stage.Decode? {
      var i :| 0 <= i < |a| && a[i] == s;
      assert seqs[i] in seqs;
    }
  }

  /** A decoding group goes on decoding. */
  lemma DecodesOn(g: SequenceGroup, r: Round)
    requires Decoding(g) && AllLive(g, Running) && r.fromRunning
    ensures NoOverflow(g.seqs, Chunk(g, r)) && Counted(Processed(g, Chunk(g, r), r.sample))
  {
    hide Processed, Produced, NoOverflow, Counted, AdvanceAll, EmitAll;
    assert g.seqs != [] ==> g.seqs[0] in g.seqs;
    assert Chunk(g, r) == 1;
    ProducedCounted(g, 1, r.sample);
  }

  lemma EventKeeps(g: SequenceGroup, e: Event)
    requires Counted(g) && Legal(g, e)
    ensures Counted(After(g, e)) && (e.Run? ==> NoOverflow(g.seqs, Chunk(g, e.round)))
  {
    hide Decoding, AllLive, Processed, Produced, Computed, Chunk, NoOverflow, Restarted, Allowance, DistinctIds, Unfinished;
    match e {
      case Restart => RestartIs(g);
      case Run(r) =>
        if Prefilling(g) {
          PositiveRemainder(g);
          NothingComputed(g);
          RoundIs(g, 0, r);
          if Allowance(g, r) < Remainder(g) {
            ComputedIs(g, Allowance(g, r));
          } else {
            SoleMember(g);
            ProducedCounted(g, Remainder(g), r.sample);
          }
        } else {
          DecodesOn(g, r);
        }
    }
  }

  lemma PositiveRemainder(g: SequenceGroup)
    requires Prefilling(g)
    ensures Remainder(g) > 0
  {
    SoleMember(g);
  }

  /** Over whole runs of prefills in chunks, decoding steps and preemptions by recomputation, the assertion of
      `update_num_computed_tokens` never fails. */
  lemma {:induction false} RunsNeverOverflow(states: seq<SequenceGroup>, events: seq<Event>, k: nat)
    requires k < |states| == |events| + 1 && Counted(states[0])
    requires forall i | 0 <= i < |events| :: Legal(states[i], events[i]) && states[i + 1] == After(states[i], events[i])
    ensures Counted(states[k])
    ensures k < |events| && events[k].Run? ==> NoOverflow(states[k].seqs, Chunk(states[k], events[k].round))
  {
    if k > 0 {
      RunsNeverOverflow(states, events, k - 1);
      EventKeeps(states[k - 1], events[k - 1]);
      assert states[k - 1 + 1] == states[k];
    }
    if k < |events| {
      EventKeeps(states[k], events[k]);
    }
  }

  // ---- the first member speaks for the group ------------------------------------------------------------------

  /** A group that waits, after a preemption by recomputation perhaps, has a prefill to run: `is_prefill` says so if and only
      if its first member has not finished. */
  lemma IsPrefillIff<B>(g: SequenceGroup, tables: map<int, seq<B>>)
    requires WaitingOk(g, tables)
    ensures IsPrefill(g) <==> !g.seqs[0].IsFinished()
  {
    assert g.seqs[0] in g.seqs;
  }

  /** For instance, a group of two samples whose first has finished and whose second is recomputed says that it decodes, so
      that all but one of the tokens charged to the budget are not run. */
  lemma FirstFinished(a: Sequence, b: Sequence, r: Round)
    requires a.IsFinished() && a.stage.Decode? && a.id != b.id
    requires b.status == Running && b.stage.Prefill? && b.numComputed < |b.tokens| && r.fromRunning && r.remaining > 0
    ensures var g := SequenceGroup(7, 0.0, 2, false, [a, b]);
      Prefilling(g) && !IsPrefill(g) && Chunk(g, r) == 1
      && NumNewTokens(g, Running, true, r.remaining) == Min(|b.tokens| - b.numComputed, r.remaining)
  {
    var g := SequenceGroup(7, 0.0, 2, false, [a, b]);
    assert g.seqs[1..] == [b] && [b][1..] == [];
    assert Unfinished([b]) == [b] + Unfinished([]) && Select([b], Running) == [b] + Select([], Running);
    assert Unfinished(g.seqs) == [b];
    assert DistinctIds([b]) && DistinctIds(g.seqs);
    assert Prefilling(g);
    SoleMember(g);
  }

  /** `is_prompt`, as `schedule` hands it to the worker with each group that runs (scheduler.py:918). */
  predicate IsPrompt(s: ScheduledGroup) { IsPrefill(s.group) }

  /** The flag is right for every group that decodes, and for a group that starts its prompt if and only if the first member
      has not finished. */
  lemma IsPromptIff<B>(g: SequenceGroup, tables: map<int, seq<B>>)
    ensures WaitingOk(g, tables) ==> (IsPrompt(Start(g)) <==> !g.seqs[0].IsFinished())
    ensures Decoding(g) && g.seqs != [] ==> !IsPrompt(ScheduledGroup(g, 1)) && !IsPrompt(ScheduledGroup(Restated(g, Status.Swapped,
                                                                                                                 Running), 1))
  {
    hide Restatus;
    if WaitingOk(g, tables) {
      assert g.seqs[0] in g.seqs;
      assert Start(g).group.seqs[0].stage == g.seqs[0].stage;
    }
    if Decoding(g) && g.seqs != [] {
      assert g.seqs[0] in g.seqs;
    }
  }
}
