/** Streams of results and the requests they belong to (vllm/engine/async_llm_engine.py:49-185).  Requests are named by
    integers, and an item keeps only what kind it is and a tag. */
module Tracking {
  import opened Wrappers

  datatype Item = Output(tag: int) | Failure(tag: int) | Stop

  /** Items, then at most one stop marker, and nothing after it. */
  ghost predicate Shape(sent: seq<Item>, finished: bool) {
    && (finished <==> sent != [] && sent[|sent| - 1] == Stop)
    && forall i | 0 <= i < |sent| - 1 :: sent[i] != Stop
  }

  class AsyncStream {
    const requestId: int
    var queue: seq<Item>
    var finished: bool
    ghost var sent: seq<Item>  // everything ever put into the queue

    ghost predicate Valid()
      reads this
    {
      Shape(sent, finished) && |queue| <= |sent| && queue == sent[|sent| - |queue|..]
    }

    constructor (requestId: int)
      ensures Valid() && this.requestId == requestId && sent == [] && !finished
    {
      this.requestId := requestId;
      queue, finished, sent := [], false, [];
    }

    /** `put` (58-61). */
    method Put(item: Item)
      requires Valid() && !item.Stop?
      modifies this
      ensures Valid() && finished == old(finished) && sent == if finished then old(sent) else old(sent) + [item]
    {
      if finished {
        return;
      }
      queue, sent := queue + [item], sent + [item];
    }

    /** `finish` (63-65). */
    method Finish()
      requires Valid() && !finished
      modifies this
      ensures Valid() && finished && sent == old(sent) + [Stop]
    {
      queue, sent := queue + [Stop], sent + [Stop];
      finished := true;
    }

    /** `__anext__` (74-78) once an item is there. */
    method Next() returns (item: Item)
      requires Valid() && queue != []
      modifies this`queue
      ensures Valid() && item == old(queue)[0] && queue == old(queue)[1..]
    {
      item := queue[0];
      queue := queue[1..];
    }
  }

  class RequestTracker {
    var requestStreams: map<int, AsyncStream>
    var finishedRequests: seq<int>
    var newRequests: seq<AsyncStream>
    ghost var issued: set<AsyncStream>  // every stream ever handed to a client

    ghost predicate Valid()
      reads this, issued
    {
      InOrder() && WaitingUntabled()
    }

    /** The queues and the table hold streams that were handed out, each waiting stream once. */
    ghost predicate InOrder()
      reads this, issued
    {
      && (forall id | id in requestStreams :: requestStreams[id] in issued && requestStreams[id].requestId == id)
      && (forall s | s in newRequests :: s in issued)
      && NoRepeats(newRequests) && forall s | s in issued :: Sane(s)
    }

    /** A request that waits has no stream in the table. */
    ghost predicate WaitingUntabled()
      reads this`requestStreams, this`newRequests
    {
      forall s | s in newRequests :: s.requestId !in requestStreams
    }

    ghost predicate Tabled(s: AsyncStream)
      reads this`requestStreams
    {
      s.requestId in requestStreams && requestStreams[s.requestId] == s
    }

    /** A stream that waits is not in the table and has been sent nothing; the streams that are about to leave the table
        are those with a stop marker. */
    ghost predicate Sane(s: AsyncStream)
      reads this`requestStreams, this`newRequests, this`finishedRequests, s
    {
      && s.Valid()
      && (s in newRequests ==> s.sent == [] && !Tabled(s))
      && (Tabled(s) ==> (s.requestId in finishedRequests <==> s.finished))
    }

    /** A stream that is not stopped either waits or is in the table. */
    ghost predicate Healthy(s: AsyncStream)
      reads this`requestStreams, this`newRequests, s
    {
      s.finished || s in newRequests || Tabled(s)
    }

    /** No client is left waiting on a stream that nothing will feed or stop. */
    ghost predicate AllHealthy()
      reads this`requestStreams, this`newRequests, this`issued, issued
    {
      forall s | s in issued :: Healthy(s)
    }

    /** The requests that wait have different identifiers. */
    ghost predicate NewDistinct()
      reads this`newRequests
    {
      StreamsDistinct(newRequests)
    }

    constructor ()
      ensures Valid() && AllHealthy() && NewDistinct()
      ensures requestStreams == map[] && newRequests == [] && finishedRequests == [] && issued == {}
    {
      requestStreams, finishedRequests, newRequests, issued := map[], [], [], {};
    }

    predicate Waiting(requestId: int)
      reads this`newRequests
    {
      exists s | s in newRequests :: s.requestId == requestId
    }

    method Enlist(stream: AsyncStream)
      requires Valid() && stream !in issued && stream.Valid() && stream.sent == []
      requires stream.requestId !in requestStreams
      modifies this`newRequests, this`issued
      ensures Valid() && newRequests == old(newRequests) + [stream] && issued == old(issued) + {stream}
      ensures old(AllHealthy()) ==> AllHealthy()
      ensures NewDistinct() <==> old(NewDistinct()) && !old(Waiting(stream.requestId))
    {
      hide AsyncStream.Valid;
      Appended(newRequests, stream);
      newRequests, issued := newRequests + [stream], issued + {stream};
    }

    /** `add_request` (134-149).  It does not look whether the identifier is still waiting for the next step. */
    method AddRequest(requestId: int) returns (r: Result<AsyncStream>)
      requires Valid()
      modifies this`newRequests, this`issued
      ensures Valid() && (r.Ok? <==> requestId !in requestStreams) && (r.Err? ==> r.error == KeyError)
      ensures r.Ok? ==> fresh(r.value) && r.value.requestId == requestId && r.value.sent == []
      ensures newRequests == old(newRequests) + if r.Ok? then [r.value] else []
      ensures issued == old(issued) + if r.Ok? then {r.value} else {}
      ensures old(AllHealthy()) ==> AllHealthy()
      ensures NewDistinct() <==> old(NewDistinct()) && !(r.Ok? && old(Waiting(requestId)))
    {
      if requestId in requestStreams {
        return Err(KeyError);
      }
      var stream := new AsyncStream(requestId);
      hide AsyncStream.Valid;
      Enlist(stream);
      return Ok(stream);
    }

    ghost function StreamOf(requestId: int): set<AsyncStream>
      reads this`requestStreams
    {
      if requestId in requestStreams then {requestStreams[requestId]} else {}
    }

    /** `abort_request` (151-163). */
    method AbortRequest(requestId: int)
      requires Valid()
      modifies this`finishedRequests, StreamOf(requestId)
      ensures Valid() && finishedRequests == old(finishedRequests) + [requestId] && (old(AllHealthy()) ==> AllHealthy())
      ensures requestId in requestStreams ==>
        && requestStreams[requestId].finished
        && requestStreams[requestId].sent ==
             old(requestStreams[requestId].sent) + (if old(requestStreams[requestId].finished) then [] else [Stop])
    {
      hide AsyncStream.Valid;
      finishedRequests := finishedRequests + [requestId];
      if requestId !in requestStreams || requestStreams[requestId].finished {
        return;
      }
      requestStreams[requestId].Finish();
    }

    /** `process_request_output` (110-121). */
    method ProcessRequestOutput(requestId: int, tag: int, finished: bool) returns (r: Result<()>)
      requires Valid()
      modifies this`finishedRequests, StreamOf(requestId)
      ensures Valid() && (r.Ok? <==> requestId in requestStreams) && (r.Err? ==> r.error == KeyError)
      ensures finishedRequests == old(finishedRequests) + if r.Ok? && finished then [requestId] else []
      ensures old(AllHealthy()) ==> AllHealthy()
      ensures r.Ok? ==>
        && requestStreams[requestId].finished == (finished || old(requestStreams[requestId].finished))
        && requestStreams[requestId].sent == old(requestStreams[requestId].sent)
             + (if old(requestStreams[requestId].finished) then [] else [Output(tag)] + if finished then [Stop] else [])
    {
      hide AsyncStream.Valid;
      if requestId !in requestStreams {
        return Err(KeyError);
      }
      requestStreams[requestId].Put(Output(tag));
      if finished {
        AbortRequest(requestId);
      }
      return Ok(());
    }

    /** `process_exception` (123-132). */
    method ProcessException(requestId: int, tag: int) returns (r: Result<()>)
      requires Valid()
      modifies this`finishedRequests, StreamOf(requestId)
      ensures Valid() && (r.Ok? <==> requestId in requestStreams) && (r.Err? ==> r.error == KeyError)
      ensures finishedRequests == old(finishedRequests) + if r.Ok? then [requestId] else []
      ensures old(AllHealthy()) ==> AllHealthy()
      ensures r.Ok? ==>
        && requestStreams[requestId].finished
        && requestStreams[requestId].sent == old(requestStreams[requestId].sent)
             + (if old(requestStreams[requestId].finished) then [] else [Failure(tag), Stop])
    {
      hide AsyncStream.Valid;
      if requestId !in requestStreams {
        return Err(KeyError);
      }
      requestStreams[requestId].Put(Failure(tag));
      AbortRequest(requestId);
      return Ok(());
    }

    /** The first loop of `get_new_and_finished_requests` (171-174). */
    method DrainFinished() returns (finished: set<int>)
      requires Valid()
      modifies this`finishedRequests, this`requestStreams
      ensures Valid() && finishedRequests == [] && finished == IdSet(old(finishedRequests))
      ensures requestStreams == old(requestStreams) - finished
    {
      hide AsyncStream.Valid;
      finished := {};
      while finishedRequests != []
        invariant Valid() && finished + IdSet(finishedRequests) == IdSet(old(finishedRequests))
        invariant requestStreams == old(requestStreams) - finished
        decreases |finishedRequests|
      {
        var requestId := finishedRequests[0];
        assert finishedRequests == [requestId] + finishedRequests[1..];
        finishedRequests := finishedRequests[1..];
        finished := finished + {requestId};
        requestStreams := requestStreams - {requestId};
      }
    }

    /** The first request that waits was aborted meanwhile. */
    method Refuse()
      requires InOrder() && newRequests != [] && finishedRequests == []
      modifies this`newRequests, newRequests[0]
      ensures InOrder() && newRequests == old(newRequests[1..]) && old(newRequests[0]).sent == [Stop]
    {
      hide AsyncStream.Valid, NoRepeats;
      var stream := newRequests[0];
      FirstOfNew();
      newRequests := newRequests[1..];
      stream.Finish();
    }

    /** The first request that waits is registered, in place of another stream for the same identifier perhaps. */
    method Register()
      requires InOrder() && newRequests != [] && finishedRequests == []
      modifies this`newRequests, this`requestStreams
      ensures InOrder() && newRequests == old(newRequests[1..]) && old(newRequests[0]).sent == []
      ensures requestStreams == old(requestStreams)[old(newRequests[0].requestId) := old(newRequests[0])]
    {
      hide AsyncStream.Valid, NoRepeats;
      var stream := newRequests[0];
      FirstOfNew();
      requestStreams := requestStreams[stream.requestId := stream];
      newRequests := newRequests[1..];
    }

    lemma FirstOfNew()
      requires InOrder() && newRequests != []
      ensures newRequests[0] in newRequests && newRequests[0] in issued && newRequests[0].sent == []
      ensures newRequests[0].Valid() && !newRequests[0].finished
      ensures NoRepeats(newRequests[1..]) && newRequests[0] !in newRequests[1..]
      ensures forall s | s in newRequests[1..] :: s in newRequests
      ensures forall s | s in newRequests && s != newRequests[0] :: s in newRequests[1..]
    {
      assert newRequests[0] in newRequests && Sane(newRequests[0]);
      assert newRequests == [newRequests[0]] + newRequests[1..];
    }

    lemma WaitApart()
      requires Valid()
      ensures NoRepeats(newRequests) && forall s | s in newRequests :: s in issued && s.requestId !in requestStreams
    {
    }

    /** The second loop (176-183): what was aborted while it waited is not admitted, only stopped; of several streams for one
        identifier the last stays in the table. */
    method DrainNew(finished: set<int>) returns (admitted: seq<int>)
      requires InOrder() && finishedRequests == []
      modifies this`newRequests, this`requestStreams, newRequests
      ensures Valid() && newRequests == []
      ensures admitted == Outside(IdsOf(old(newRequests)), finished)
      ensures requestStreams == Filed(old(requestStreams), old(newRequests), finished)
      ensures Settled(old(newRequests), finished)
    {
      hide AsyncStream.Valid, InOrder, NoRepeats, IdsOf, Outside, Filed, IdSet, Settled;
      ghost var all, before, done: seq<AsyncStream> := newRequests, requestStreams, [];
      admitted := [];
      NoneYet(before, finished);
      EachOnce();
      while newRequests != []
        invariant InOrder() && finishedRequests == [] && all == done + newRequests
        invariant admitted == Outside(IdsOf(done), finished)
        invariant requestStreams == Filed(before, done, finished)
        invariant Settled(done, finished)
        decreases |newRequests|
      {
        var stream := newRequests[0];
        assert stream in newRequests;
        NextOf(all, done, newRequests, finished);
        FiledMore(before, done, stream, finished);
        if stream.requestId in finished {
          Refuse();
        } else {
          admitted := admitted + [stream.requestId];
          Register();
        }
        SettledMore(done, stream, finished);
        done := done + [stream];
      }
      assert done == all;
    }

    lemma EachOnce()
      requires InOrder()
      ensures NoRepeats(newRequests)
    {
    }

    /** Of the streams that do not wait, those that are not stopped stay in the table. */
    lemma OthersStay()
      requires Valid() && AllHealthy()
      ensures forall s | s in issued && s !in newRequests ::
        s.finished || (Tabled(s) && s.requestId !in finishedRequests)
    {
      forall s | s in issued && s !in newRequests ensures s.finished || (Tabled(s) && s.requestId !in finishedRequests) {
        assert Sane(s) && Healthy(s);
      }
    }

    /** `get_new_and_finished_requests` (165-185).  No stream is lost if and only if no identifier waits twice, except among
        those that were aborted. */
    method GetNewAndFinishedRequests() returns (admitted: seq<int>, finished: set<int>)
      requires Valid()
      modifies this`finishedRequests, this`newRequests, this`requestStreams, newRequests
      ensures Valid() && newRequests == [] && finishedRequests == [] && finished == IdSet(old(finishedRequests))
      ensures admitted == Outside(IdsOf(old(newRequests)), finished)
      ensures requestStreams == Filed(old(requestStreams) - finished, old(newRequests), finished)
      ensures Settled(old(newRequests), finished)
      ensures old(AllHealthy()) ==> (AllHealthy() <==> DistinctBut(old(newRequests), finished))
    {
      hide AsyncStream.Valid, InOrder, Outside, IdsOf, Filed, Settled, NoRepeats, DistinctBut, AllHealthy;
      ghost var waiting, streams, healthy := newRequests, requestStreams, AllHealthy();
      WaitApart();
      if healthy {
        OthersStay();
      }
      finished := DrainFinished();
      admitted := DrainNew(finished);
      if healthy {
        AllHealthyIff(waiting, streams, finished);
      }
    }

    lemma AllHealthyIff(waiting: seq<AsyncStream>, streams: map<int, AsyncStream>, finished: set<int>)
      requires InOrder() && newRequests == [] && NoRepeats(waiting)
      requires forall s | s in waiting :: s in issued && s.requestId !in streams
      requires requestStreams == Filed(streams - finished, waiting, finished) && Settled(waiting, finished)
      requires forall s | s in issued && s !in waiting ::
        s.finished || (s.requestId in streams && streams[s.requestId] == s && s.requestId !in finished)
      ensures AllHealthy() <==> DistinctBut(waiting, finished)
    {
      hide Filed, NoRepeats, Healthy, InOrder, Settled;
      if DistinctBut(waiting, finished) {
        forall s | s in issued ensures Healthy(s) {
          KeptIf(waiting, streams, finished, s);
        }
      } else {
        var i, j :| 0 <= i < j < |waiting| && waiting[i].requestId == waiting[j].requestId && waiting[i].requestId !in finished;
        assert waiting[i] in waiting;
        LostIf(waiting, streams, finished, i, j);
      }
    }

    lemma KeptIf(waiting: seq<AsyncStream>, streams: map<int, AsyncStream>, finished: set<int>, s: AsyncStream)
      requires InOrder() && newRequests == [] && DistinctBut(waiting, finished) && s in issued
      requires forall t | t in waiting :: t in issued && t.requestId !in streams
      requires requestStreams == Filed(streams - finished, waiting, finished) && Settled(waiting, finished)
      requires s !in waiting ==> s.finished || (s.requestId in streams && streams[s.requestId] == s && s.requestId !in finished)
      ensures Healthy(s)
    {
      hide Filed, NoRepeats;
      if s in waiting {
        assert s.Valid();
        if s.requestId !in finished {
          var k :| 0 <= k < |waiting| && waiting[k] == s;
          FiledLast(streams - finished, waiting, finished, k);
        }
      } else if !s.finished {
        FiledOther(streams - finished, waiting, finished, s.requestId);
      }
    }

    lemma LostIf(waiting: seq<AsyncStream>, streams: map<int, AsyncStream>, finished: set<int>, i: nat, j: nat)
      requires InOrder() && newRequests == [] && NoRepeats(waiting) && i < j < |waiting| && waiting[i] in issued
      requires waiting[i].requestId == waiting[j].requestId && waiting[i].requestId !in finished
      requires requestStreams == Filed(streams - finished, waiting, finished) && Settled(waiting, finished)
      ensures !Healthy(waiting[i])
    {
      hide Filed, NoRepeats;
      FiledLost(streams - finished, waiting, finished, i, j);
      assert waiting[i] in waiting && Sane(waiting[i]);
    }

    /** For instance, a client that adds a request twice before the next step is served on the second stream only: both go to
        the engine, and the first stream is not stopped, does not wait and is not in the table. */
    method AddTwice(requestId: int) returns (first: AsyncStream, admitted: seq<int>)
      requires Valid() && newRequests == [] && requestId !in requestStreams && requestId !in finishedRequests
      modifies this`finishedRequests, this`newRequests, this`requestStreams, this`issued
      ensures Valid() && first in issued && !first.finished && newRequests == [] && !Tabled(first)
      ensures admitted == [requestId, requestId]
    {
      hide AsyncStream.Valid, Filed, Settled;
      var one := AddRequest(requestId);
      var two := AddRequest(requestId);
      first := one.value;
      ghost var waiting, streams := newRequests, requestStreams;
      assert waiting == [one.value, two.value];
      WaitApart();
      var finished;
      admitted, finished := GetNewAndFinishedRequests();
      assert requestId !in finished;
      FiledLost(streams - finished, waiting, finished, 0, 1);
      TwoIds(waiting, finished);
      assert first in waiting;
      NotStopped(waiting, finished, first);
    }
  }

  lemma TwoIds(streams: seq<AsyncStream>, out: set<int>)
    requires |streams| == 2 && streams[0].requestId !in out && streams[1].requestId !in out
    ensures Outside(IdsOf(streams), out) == [streams[0].requestId, streams[1].requestId]
  {
    var ids := IdsOf(streams);
    assert ids == [streams[0].requestId, streams[1].requestId];
    assert ids[..1] == [ids[0]] && [ids[0]][..0] == [];
    assert Outside([ids[0]], out) == [] + [ids[0]];
  }

  lemma NotStopped(done: seq<AsyncStream>, finished: set<int>, s: AsyncStream)
    requires Settled(done, finished) && s in done && s.requestId !in finished && s.Valid()
    ensures !s.finished
  {
  }

  /** The streams of a list belong to different requests. */
  ghost predicate StreamsDistinct(streams: seq<AsyncStream>) {
    forall i, j | 0 <= i < j < |streams| :: streams[i].requestId != streams[j].requestId
  }

  /** The same, not counting the requests `out`. */
  ghost predicate DistinctBut(streams: seq<AsyncStream>, out: set<int>) {
    forall i, j | 0 <= i < j < |streams| :: streams[i].requestId == streams[j].requestId ==> streams[i].requestId in out
  }

  /** No stream is in the list twice. */
  ghost predicate NoRepeats(streams: seq<AsyncStream>) {
    forall i, j | 0 <= i < j < |streams| :: streams[i] != streams[j]
  }

  lemma Appended(streams: seq<AsyncStream>, s: AsyncStream)
    ensures StreamsDistinct(streams + [s]) <==> StreamsDistinct(streams) && forall t | t in streams :: t.requestId != s.requestId
    ensures NoRepeats(streams + [s]) <==> NoRepeats(streams) && s !in streams
  {
    var all := streams + [s];
    if StreamsDistinct(all) {
      forall t | t in streams ensures t.requestId != s.requestId {
        var i :| 0 <= i < |streams| && streams[i] == t;
        assert all[i] == t && all[|streams|] == s;
      }
      forall i, j | 0 <= i < j < |streams| ensures streams[i].requestId != streams[j].requestId {
        assert all[i] == streams[i] && all[j] == streams[j];
      }
    }
    if NoRepeats(all) {
      forall i, j | 0 <= i < j < |streams| ensures streams[i] != streams[j] {
        assert all[i] == streams[i] && all[j] == streams[j];
      }
      forall i | 0 <= i < |streams| ensures streams[i] != s {
        assert all[i] == streams[i] && all[|streams|] == s;
      }
    }
  }

  /** The table after the streams `added` were registered in turn, but for the requests `out`. */
  ghost function Filed(before: map<int, AsyncStream>, added: seq<AsyncStream>, out: set<int>): map<int, AsyncStream> {
    if added == [] then before
    else
      var front, s := Filed(before, added[..|added| - 1], out), added[|added| - 1];
      if s.requestId in out then front else front[s.requestId := s]
  }

  lemma FiledMore(before: map<int, AsyncStream>, added: seq<AsyncStream>, s: AsyncStream, out: set<int>)
    ensures Filed(before, added + [s], out)
            == if s.requestId in out then Filed(before, added, out) else Filed(before, added, out)[s.requestId := s]
  {
    assert (added + [s])[..|added|] == added;
  }

  lemma {:induction false} FiledOther(before: map<int, AsyncStream>, added: seq<AsyncStream>, out: set<int>, id: int)
    requires forall s | s in added :: s.requestId != id || id in out
    ensures var after := Filed(before, added, out);
      (id in after <==> id in before) && (id in before ==> after[id] == before[id])
  {
    if added != [] {
      assert added[|added| - 1] in added;
      FiledOther(before, added[..|added| - 1], out, id);
    }
  }

  /** An identifier keeps the last of its streams. */
  lemma {:induction false} FiledLast(before: map<int, AsyncStream>, added: seq<AsyncStream>, out: set<int>, k: nat)
    requires k < |added| && added[k].requestId !in out
    requires forall j | k < j < |added| :: added[j].requestId != added[k].requestId
    ensures var after := Filed(before, added, out); added[k].requestId in after && after[added[k].requestId] == added[k]
  {
    if k < |added| - 1 {
      FiledLast(before, added[..|added| - 1], out, k);
    }
  }

  /** An earlier one is lost. */
  lemma {:induction false} FiledLost(before: map<int, AsyncStream>, added: seq<AsyncStream>, out: set<int>, k: nat, j: nat)
    requires NoRepeats(added) && k < j < |added| && added[k].requestId == added[j].requestId && added[k].requestId !in out
    ensures var after := Filed(before, added, out); added[k].requestId in after && after[added[k].requestId] != added[k]
  {
    var front, last := added[..|added| - 1], added[|added| - 1];
    if last.requestId != added[k].requestId {
      assert NoRepeats(front);
      FiledLost(before, front, out, k, j);
    }
  }

  lemma NoneYet(before: map<int, AsyncStream>, finished: set<int>)
    ensures Filed(before, [], finished) == before && Outside(IdsOf([]), finished) == [] && Settled([], finished)
  {
  }

  function IdSet(s: seq<int>): set<int> { set x | x in s }

  function IdsOf(streams: seq<AsyncStream>): (r: seq<int>)
    ensures |r| == |streams| && forall i | 0 <= i < |r| :: r[i] == streams[i].requestId
  {
    if streams == [] then [] else [streams[0].requestId] + IdsOf(streams[1..])
  }

  /** The identifiers that are not in `out`, in order. */
  function Outside(ids: seq<int>, out: set<int>): seq<int> {
    if ids == [] then []
    else
      Outside(ids[..|ids| - 1], out) + if ids[|ids| - 1] in out then [] else [ids[|ids| - 1]]
  }

  lemma {:induction false} OutsideIdSet(ids: seq<int>, out: set<int>)
    ensures IdSet(Outside(ids, out)) == IdSet(ids) - out
  {
    if ids != [] {
      var front, last := ids[..|ids| - 1], ids[|ids| - 1];
      OutsideIdSet(front, out);
      assert ids == front + [last];
      assert IdSet(ids) == IdSet(front) + {last};
      assert IdSet(Outside(front, out) + [last]) == IdSet(Outside(front, out)) + {last};
      assert Outside(front, out) + [] == Outside(front, out);
    }
  }

  lemma {:induction false} FiledDomain(before: map<int, AsyncStream>, added: seq<AsyncStream>, out: set<int>)
    ensures Filed(before, added, out).Keys == before.Keys + IdSet(Outside(IdsOf(added), out))
  {
    if added != [] {
      var front, ids := added[..|added| - 1], IdsOf(added);
      FiledDomain(before, front, out);
      assert ids[..|ids| - 1] == IdsOf(front);
      var r := Outside(IdsOf(front), out);
      assert IdSet(r + [added[|added| - 1].requestId]) == IdSet(r) + {added[|added| - 1].requestId};
      assert r + [] == r;
    }
  }

  lemma NextOf(all: seq<AsyncStream>, done: seq<AsyncStream>, rest: seq<AsyncStream>, out: set<int>)
    requires NoRepeats(all) && all == done + rest && rest != []
    ensures rest[0] in all && rest[0] !in done && all == (done + [rest[0]]) + rest[1..]
    ensures Outside(IdsOf(done + [rest[0]]), out) ==
      Outside(IdsOf(done), out) + if rest[0].requestId in out then [] else [rest[0].requestId]
  {
    assert all[|done|] == rest[0] && forall i | 0 <= i < |done| :: all[i] == done[i];
    var more := IdsOf(done + [rest[0]]);
    assert more[..|done|] == IdsOf(done) && more[|done|] == rest[0].requestId;
  }

  /** What became of the streams that were taken from the queue. */
  ghost predicate Settled(done: seq<AsyncStream>, finished: set<int>)
    reads done
  {
    forall s | s in done :: s.sent == if s.requestId in finished then [Stop] else []
  }

  lemma SettledMore(done: seq<AsyncStream>, stream: AsyncStream, finished: set<int>)
    requires Settled(done, finished) && stream.sent == if stream.requestId in finished then [Stop] else []
    ensures Settled(done + [stream], finished)
  {
  }
}
