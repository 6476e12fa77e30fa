/** Sequences and sequence groups (vllm/sequence.py), as values: the scheduler replaces a group when it changes. */
module Sequences {
  import opened Blocks
  import Arithmetic

  datatype Status =
    | Waiting | Running | Swapped
    | FinishedStopped | FinishedLengthCapped | FinishedAborted | FinishedIgnored
  {
    predicate IsFinished() {
      FinishedStopped? || FinishedLengthCapped? || FinishedAborted? || FinishedIgnored?
    }
  }

  datatype Stage = Prefill | Decode

  /** `tokens` is prompt plus output; `numComputed` of them have run through the model. */
  datatype Sequence = Sequence(id: int, status: Status, tokens: seq<int>, numComputed: nat, stage: Stage) {
    predicate IsFinished() { status.IsFinished() }

    /** `get_num_new_tokens` (345-354). */
    function NumNewTokens(): int {
      if stage.Decode? then 1 else |tokens| - numComputed
    }
  }

  datatype SequenceGroup = SequenceGroup(
    requestId: int, arrivalTime: real, bestOf: nat, useBeamSearch: bool, seqs: seq<Sequence>)
  {
    function WithStatus(status: Status): seq<Sequence> { Select(seqs, status) }

    function NumUnfinished(): nat { |Unfinished(seqs)| }

    predicate IsFinished() { forall s | s in seqs :: s.IsFinished() }

    /** `get_max_num_running_seqs` (464-479). */
    function MaxNumRunningSeqs(): nat {
      if useBeamSearch then bestOf
      else if bestOf > |seqs| then bestOf
      else NumUnfinished()
    }
  }

  /** `get_seqs(status)` (481-487): the members with that status, in order. */
  function Select(seqs: seq<Sequence>, status: Status): seq<Sequence> {
    if seqs == [] then []
    else (if seqs[0].status == status then [seqs[0]] else []) + Select(seqs[1..], status)
  }

  lemma {:induction false} SelectIsSubsequence(seqs: seq<Sequence>, status: Status)
    ensures |Select(seqs, status)| <= |seqs|
    ensures forall s :: s in Select(seqs, status) <==> s in seqs && s.status == status
    ensures |Select(seqs, status)| == |seqs| <==> forall s | s in seqs :: s.status == status
    ensures |Select(seqs, status)| == |seqs| ==> Select(seqs, status) == seqs
  {
    if seqs != [] {
      SelectIsSubsequence(seqs[1..], status);
      assert seqs == [seqs[0]] + seqs[1..];
    }
  }

  /** The keys of a dictionary are distinct. */
  ghost predicate DistinctIds(seqs: seq<Sequence>) {
    seqs == [] || (DistinctIds(seqs[1..]) && forall s | s in seqs[1..] :: s.id != seqs[0].id)
  }

  lemma {:induction false} SelectedDistinct(seqs: seq<Sequence>, status: Status)
    requires DistinctIds(seqs)
    ensures DistinctIds(Select(seqs, status))
  {
    if seqs != [] {
      var rest := Select(seqs[1..], status);
      SelectedDistinct(seqs[1..], status);
      SelectIsSubsequence(seqs[1..], status);
      if seqs[0].status == status {
        assert Select(seqs, status)[1..] == rest;
      } else {
        assert Select(seqs, status) == rest;
      }
    }
  }

  lemma {:induction false} IdsDistinct(seqs: seq<Sequence>)
    requires DistinctIds(seqs)
    ensures Distinct(Ids(seqs))
  {
    if seqs != [] {
      var rest := Ids(seqs[1..]);
      IdsDistinct(seqs[1..]);
      forall k | 0 <= k < |rest| ensures rest[k] != seqs[0].id {
        assert seqs[1..][k] in seqs[1..];
      }
      assert Ids(seqs) == [seqs[0].id] + rest;
    }
  }

  lemma SelectedIdsDistinct(seqs: seq<Sequence>, status: Status)
    requires DistinctIds(seqs)
    ensures Distinct(Ids(Select(seqs, status)))
  {
    SelectedDistinct(seqs, status);
    IdsDistinct(Select(seqs, status));
  }

  function Unfinished(seqs: seq<Sequence>): seq<Sequence> {
    if seqs == [] then []
    else (if seqs[0].IsFinished() then [] else [seqs[0]]) + Unfinished(seqs[1..])
  }

  function Ids(seqs: seq<Sequence>): (ids: seq<int>)
    ensures |ids| == |seqs| && forall i | 0 <= i < |ids| :: ids[i] == seqs[i].id
  {
    if seqs == [] then [] else [seqs[0].id] + Ids(seqs[1..])
  }

  /** The number of blocks of `blockSize` slots that `length` tokens fill (the last one perhaps partly). */
  function NumBlocks(length: nat, blockSize: nat): nat
    requires blockSize > 0
  {
    (length + blockSize - 1) / blockSize
  }

  /** A token more takes at most a block more. */
  lemma OneMoreBlock(length: nat, blockSize: nat)
    requires blockSize > 0
    ensures NumBlocks(length, blockSize) <= NumBlocks(length + 1, blockSize) <= NumBlocks(length, blockSize) + 1
  {
    var q, r := (length + blockSize - 1) / blockSize, (length + blockSize - 1) % blockSize;
    assert length + blockSize == q * blockSize + (r + 1);
    if r + 1 < blockSize {
      Arithmetic.DivMod(q, r + 1, blockSize);
    } else {
      assert length + blockSize == (q + 1) * blockSize + 0;
      Arithmetic.DivMod(q + 1, 0, blockSize);
    }
  }

  // ---- in-place changes of a group's members, as new values -------------------------------------------------

  /** Every member with status `from` gets status `to`. */
  function Restatus(seqs: seq<Sequence>, from: Status, to: Status): (r: seq<Sequence>)
    ensures |r| == |seqs|
    ensures forall i | 0 <= i < |seqs| :: r[i] == if seqs[i].status == from then seqs[i].(status := to) else seqs[i]
  {
    if seqs == [] then []
    else [if seqs[0].status == from then seqs[0].(status := to) else seqs[0]] + Restatus(seqs[1..], from, to)
  }

  /** A change of status among live ones keeps the identifiers and tokens of the live members. */
  lemma {:induction false} LiveKeep(a: seq<Sequence>, b: seq<Sequence>)
    requires |a| == |b|
    requires forall i | 0 <= i < |a| :: a[i].id == b[i].id && a[i].tokens == b[i].tokens && (a[i].IsFinished() <==> b[i].IsFinished())
    ensures |Unfinished(a)| == |Unfinished(b)|
    ensures forall k | 0 <= k < |Unfinished(a)| ::
      Unfinished(a)[k].id == Unfinished(b)[k].id && Unfinished(a)[k].tokens == Unfinished(b)[k].tokens
  {
    if a != [] {
      LiveKeep(a[1..], b[1..]);
      assert Unfinished(a) == (if a[0].IsFinished() then [] else [a[0]]) + Unfinished(a[1..]);
      assert Unfinished(b) == (if b[0].IsFinished() then [] else [b[0]]) + Unfinished(b[1..]);
    }
  }

  /** A member preempted by recomputation waits again with nothing computed (`reset_state_for_recompute`, 154-160). */
  function Reset(s: Sequence): Sequence {
    s.(status := Waiting, numComputed := 0, stage := Prefill)
  }

  function ResetRunning(seqs: seq<Sequence>): (r: seq<Sequence>)
    ensures |r| == |seqs|
    ensures forall i | 0 <= i < |seqs| :: r[i] == if seqs[i].status == Running then Reset(seqs[i]) else seqs[i]
  {
    if seqs == [] then []
    else [if seqs[0].status == Running then Reset(seqs[0]) else seqs[0]] + ResetRunning(seqs[1..])
  }

  lemma {:induction false} UnfinishedIsSubsequence(seqs: seq<Sequence>)
    ensures forall s :: s in Unfinished(seqs) <==> s in seqs && !s.IsFinished()
  {
    if seqs != [] {
      UnfinishedIsSubsequence(seqs[1..]);
      assert seqs == [seqs[0]] + seqs[1..];
    }
  }

  /** When every live member has one status, selecting that status selects the live members. */
  lemma {:induction false} SelectLive(seqs: seq<Sequence>, status: Status)
    requires !status.IsFinished() && forall s | s in seqs :: s.IsFinished() || s.status == status
    ensures Select(seqs, status) == Unfinished(seqs)
  {
    if seqs != [] {
      SelectLive(seqs[1..], status);
      assert seqs[0] in seqs;
    }
  }

  /** A change that keeps identifiers and finished members keeps the live members' number and distinctness. */
  lemma {:induction false} SameMembers(a: seq<Sequence>, b: seq<Sequence>)
    requires |a| == |b| && forall i | 0 <= i < |a| :: a[i].id == b[i].id && (a[i].IsFinished() <==> b[i].IsFinished())
    ensures |Unfinished(a)| == |Unfinished(b)| && (DistinctIds(a) ==> DistinctIds(b))
  {
    if a != [] {
      SameMembers(a[1..], b[1..]);
      if DistinctIds(a) {
        forall s | s in b[1..] ensures s.id != b[0].id {
          var i :| 0 <= i < |b[1..]| && b[1..][i] == s;
          assert a[1..][i] in a[1..];
        }
      }
    }
  }
}
