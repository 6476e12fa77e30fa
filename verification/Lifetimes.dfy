/** What becomes of the members of a group: they are forked and end (vllm/sequence.py:464-523, vllm/core/scheduler.py:943-954). */
module Lifetimes {
  import opened Sequences
  import opened GroupStates

  /** The member at index `parent` is forked, or the one at `member` ends. */
  datatype Change = Fork(parent: nat, id: int, token: int) | End(member: nat, status: Status)

  /** Live members are forked as long as there is room, and end for one of the reasons there are. */
  predicate Allowed(g: SequenceGroup, c: Change) {
    match c
    case Fork(parent, id, _) =>
      && parent < |g.seqs| && !g.seqs[parent].IsFinished() && g.seqs[parent].tokens != []
      && CanFork(g) && forall s | s in g.seqs :: s.id != id
    case End(member, status) => member < |g.seqs| && !g.seqs[member].IsFinished() && status.IsFinished()
  }

  function Changed(g: SequenceGroup, c: Change): SequenceGroup
    requires Allowed(g, c)
  {
    match c
    case Fork(parent, id, token) => Forked(g, Child(g.seqs[parent], id, token))
    case End(member, status) => g.(seqs := g.seqs[member := g.seqs[member].(status := status)])
  }

  predicate Run(g: SequenceGroup, changes: seq<Change>)
    decreases changes
  {
    changes != [] ==> Allowed(g, changes[0]) && Run(Changed(g, changes[0]), changes[1..])
  }

  function Outcome(g: SequenceGroup, changes: seq<Change>): SequenceGroup
    requires Run(g, changes)
    decreases changes
  {
    if changes == [] then g else Outcome(Changed(g, changes[0]), changes[1..])
  }

  /** The members that run at the same time when all live ones do. */
  ghost function NumLive(g: SequenceGroup): nat { |Unfinished(g.seqs)| }

  /** A beam search has no more candidates than it asked for. */
  ghost predicate BeamsFit(g: SequenceGroup) { g.useBeamSearch ==> NumLive(g) <= g.bestOf }

  lemma {:induction false} EndedCount(seqs: seq<Sequence>, i: nat, status: Status)
    requires i < |seqs| && !seqs[i].IsFinished() && status.IsFinished()
    ensures |Unfinished(seqs[i := seqs[i].(status := status)])| == |Unfinished(seqs)| - 1
  {
    var after := seqs[i := seqs[i].(status := status)];
    if i == 0 {
      assert after[1..] == seqs[1..];
    } else {
      assert after[1..] == seqs[1..][i - 1 := seqs[i].(status := status)];
      EndedCount(seqs[1..], i - 1, status);
    }
  }

  /** One change: members that have ended stay so, and the limit does not grow. */
  lemma ChangeCounts(g: SequenceGroup, c: Change)
    requires Allowed(g, c) && BeamsFit(g)
    ensures var h := Changed(g, c);
      && h.bestOf == g.bestOf && h.useBeamSearch == g.useBeamSearch && BeamsFit(h)
      && |h.seqs| == |g.seqs| + (if c.Fork? then 1 else 0) && NumLive(h) == NumLive(g) + (if c.Fork? then 1 else -1)
      && h.MaxNumRunningSeqs() <= g.MaxNumRunningSeqs()
  {
    UnfinishedFewer(g.seqs);
    match c
    case Fork(parent, id, token) => UnfinishedGrows(g.seqs, Child(g.seqs[parent], id, token));
    case End(member, status) => EndedCount(g.seqs, member, status);
  }

  /** In a beam search ended candidates are replaced.  Otherwise a sample that ends before all are forked leaves its place
      empty for good. */
  ghost function Lost(g: SequenceGroup): int {
    if g.useBeamSearch || g.bestOf <= |g.seqs| then 0 else |g.seqs| - NumLive(g)
  }

  /** Whatever becomes of a group, no more of its members are ever live than `get_max_num_running_seqs` says (464-479), less
      the lost places. */
  lemma {:induction false} NeverMore(g: SequenceGroup, changes: seq<Change>)
    requires Run(g, changes) && BeamsFit(g)
    ensures NumLive(Outcome(g, changes)) <= g.MaxNumRunningSeqs() - Lost(g) <= g.MaxNumRunningSeqs()
    decreases changes
  {
    UnfinishedFewer(g.seqs);
    if changes != [] {
      ChangeCounts(g, changes[0]);
      NeverMore(Changed(g, changes[0]), changes[1..]);
    }
  }

  /** An identifier that no member has. */
  ghost function FreshId(seqs: seq<Sequence>): (id: int)
    ensures forall s | s in seqs :: s.id < id
  {
    if seqs == [] then 0 else var id := FreshId(seqs[1..]); if seqs[0].id < id then id else seqs[0].id + 1
  }

  /** So many are live in the end if samples or beams are forked until no more are wanted. */
  lemma {:induction false} ForkAll(g: SequenceGroup) returns (changes: seq<Change>)
    requires BeamsFit(g) && exists s :: s in g.seqs && !s.IsFinished() && s.tokens != []
    ensures Run(g, changes) && NumLive(Outcome(g, changes)) == g.MaxNumRunningSeqs() - Lost(g)
    decreases g.bestOf - NumLive(g)
  {
    UnfinishedFewer(g.seqs);
    if CanFork(g) {
      var s :| s in g.seqs && !s.IsFinished() && s.tokens != [];
      var parent :| 0 <= parent < |g.seqs| && g.seqs[parent] == s;
      var c := Fork(parent, FreshId(g.seqs), s.tokens[0]);
      ChangeCounts(g, c);
      assert s in Changed(g, c).seqs;
      var more := ForkAll(Changed(g, c));
      changes := [c] + more;
      assert changes[1..] == more;
    } else {
      changes := [];
    }
  }

  lemma {:induction false} AllLiveCount(seqs: seq<Sequence>)
    ensures |Unfinished(seqs)| == |seqs| <==> forall s | s in seqs :: !s.IsFinished()
  {
    if seqs != [] {
      AllLiveCount(seqs[1..]);
      UnfinishedFewer(seqs[1..]);
      assert seqs == [seqs[0]] + seqs[1..];
    }
  }

  /** So the limit is the least that always holds, unless samples have ended before all were forked. */
  lemma LimitMetIff(g: SequenceGroup)
    requires BeamsFit(g) && exists s :: s in g.seqs && !s.IsFinished() && s.tokens != []
    ensures (exists changes :: Run(g, changes) && NumLive(Outcome(g, changes)) == g.MaxNumRunningSeqs())
            <==> g.useBeamSearch || g.bestOf <= |g.seqs| || forall s | s in g.seqs :: !s.IsFinished()
  {
    AllLiveCount(g.seqs);
    UnfinishedFewer(g.seqs);
    if Lost(g) == 0 {
      var changes := ForkAll(g);
    } else {
      forall changes | Run(g, changes) ensures NumLive(Outcome(g, changes)) != g.MaxNumRunningSeqs() {
        NeverMore(g, changes);
      }
    }
  }
}
