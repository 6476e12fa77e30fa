/** The loop around the engine (vllm/engine/async_llm_engine.py:439-477).  Between two awaits a coroutine runs alone; at
    every await clients may add and abort requests, so a step of the loop is cut into the pieces between its awaits. */
module AsyncEngine {
  import opened Wrappers
  import opened Tracking

  datatype Phase = Idle | Admitting | Stepping

  /** One output of the engine: for which request, what, and whether it is the last. */
  datatype Sample = Sample(requestId: int, tag: int, last: bool)

  /** What happens at an await: a client adds or aborts, or the loop goes on. */
  datatype Event = Add(requestId: int) | Abort(requestId: int) | Resume(valid: bool, tag: int, outs: seq<Sample>)

  // ---- the loop by identifiers alone ----------------------------------------------------------------------------------

  /** What the loop and its tracker hold, by identifier, and what the streams in the table have received. */
  datatype Loop = Loop(phase: Phase, live: set<int>, pending: seq<int>, toAbort: set<int>, finished: seq<int>, waiting: seq<int>,
                       sent: map<int, seq<Item>>)

  const START: Loop := Loop(Idle, {}, [], {}, [], [], map[])

  predicate Closed(items: seq<Item>) { items != [] && items[|items| - 1] == Stop }

  /** Nothing is added to a closed stream. */
  function Received(sent: map<int, seq<Item>>, id: int, items: seq<Item>): map<int, seq<Item>> {
    if id !in sent || Closed(sent[id]) then sent else sent[id := sent[id] + items]
  }

  /** The clients' requests are taken over (165-185): those given up meanwhile leave, the others get a stream. */
  function Drained(l: Loop): Loop {
    var out := IdSet(l.finished);
    var admitted := Outside(l.waiting, out);
    Loop(Admitting, l.live, admitted, out, [], [],
         map id | id in l.sent.Keys - out + IdSet(admitted) :: if id in IdSet(admitted) then [] else l.sent[id])
  }

  /** The next request is sent to the engine, or refused. */
  function Admitted(l: Loop, valid: bool, tag: int): Loop
    requires l.pending != []
  {
    var id, rest := l.pending[0], l.pending[1..];
    if valid then l.(pending := rest, live := l.live + {id})
    else l.(pending := rest, finished := l.finished + [id], sent := Received(l.sent, id, [Failure(tag), Stop]))
  }

  function Answered(l: Loop, o: Sample): Loop {
    var items := [Output(o.tag)] + if o.last then [Stop] else [];
    if o.requestId !in l.live then l
    else l.(live := if o.last then l.live - {o.requestId} else l.live,
            finished := l.finished + if o.last then [o.requestId] else [],
            sent := Received(l.sent, o.requestId, items))
  }

  function AllAnswered(l: Loop, outs: seq<Sample>): Loop {
    if outs == [] then l else Answered(AllAnswered(l, outs[..|outs| - 1]), outs[|outs| - 1])
  }

  function Next(l: Loop, e: Event): Loop {
    match e
    case Add(id) => if id in l.sent then l else l.(waiting := l.waiting + [id])
    case Abort(id) => l.(finished := l.finished + [id], sent := Received(l.sent, id, [Stop]))
    case Resume(valid, tag, outs) =>
      match l.phase
      case Idle => Drained(l)
      case Admitting =>
        if l.pending == [] then l.(phase := Stepping, live := l.live - l.toAbort, toAbort := {}) else Admitted(l, valid, tag)
      case Stepping => AllAnswered(l, outs).(phase := Idle)
  }

  /** The loop after these events. */
  function After(l: Loop, events: seq<Event>): Loop {
    if events == [] then l else Next(After(l, events[..|events| - 1]), events[|events| - 1])
  }

  lemma NoneTwice(waiting: seq<AsyncStream>, out: set<int>)
    requires StreamsDistinct(waiting)
    ensures DistinctBut(waiting, out) && StreamsDistinct([])
  {
  }

  lemma NoIds()
    ensures IdsOf([]) == []
  {
  }

  /** Who is admitted. */
  lemma OutsideHas(waiting: seq<AsyncStream>, out: set<int>, id: int)
    ensures id in IdSet(Outside(IdsOf(waiting), out)) <==> id !in out && exists s :: s in waiting && s.requestId == id
  {
    var ids := IdsOf(waiting);
    OutsideIdSet(ids, out);
    if s :| s in waiting && s.requestId == id {
      var k :| 0 <= k < |waiting| && waiting[k] == s;
      assert ids[k] == id;
    }
    if id in IdSet(ids) {
      var k :| 0 <= k < |ids| && ids[k] == id;
      assert waiting[k] in waiting;
    }
  }

  /** A stream that has just been admitted has received nothing. */
  lemma {:induction false} FiledNew(before: map<int, AsyncStream>, added: seq<AsyncStream>, out: set<int>, id: int)
    requires Settled(added, out) && id in IdSet(Outside(IdsOf(added), out))
    ensures var after := Filed(before, added, out); id in after && after[id] in added && after[id].sent == []
  {
    hide IdSet, Outside, IdsOf, Settled;
    OutsideHas(added, out, id);
    if added != [] {
      var front, last := added[..|added| - 1], added[|added| - 1];
      SettledFront(added, out);
      OutsideHas(front, out, id);
      assert added == front + [last];
      if last.requestId != id {
        FiledNew(before, front, out, id);
      }
    }
  }

  lemma SettledFront(added: seq<AsyncStream>, out: set<int>)
    requires Settled(added, out) && added != []
    ensures Settled(added[..|added| - 1], out)
    ensures var last := added[|added| - 1]; last.requestId !in out ==> last.sent == []
  {
    assert added[|added| - 1] in added;
  }

  lemma ReceivedIs(sent: map<int, seq<Item>>, sent': map<int, seq<Item>>, id: int, items: seq<Item>)
    requires sent'.Keys == sent.Keys && forall k | k in sent && k != id :: sent'[k] == sent[k]
    requires id in sent ==> sent'[id] == sent[id] + if Closed(sent[id]) then [] else items
    ensures sent' == Received(sent, id, items)
  {
    var r := Received(sent, id, items);
    if id in sent && Closed(sent[id]) {
      assert sent[id] + [] == sent[id];
    }
    assert r.Keys == sent'.Keys;
    forall k | k in sent' ensures k in r && r[k] == sent'[k] {
      assert k in sent;
    }
  }

  lemma NoneAnswered(l: Loop)
    ensures AllAnswered(l, []) == l
  {
  }

  lemma AnsweredMore(l: Loop, outs: seq<Sample>, i: nat)
    requires i < |outs|
    ensures AllAnswered(l, outs[..i + 1]) == Answered(AllAnswered(l, outs[..i]), outs[i])
  {
    assert outs[..i + 1][..i] == outs[..i];
  }

  lemma NoEvents(events: seq<Event>)
    ensures After(START, events[..0]) == START
  {
  }

  lemma AfterMore(l: Loop, events: seq<Event>, i: nat)
    requires i < |events|
    ensures After(l, events[..i + 1]) == Next(After(l, events[..i]), events[i])
  {
    assert events[..i + 1][..i] == events[..i];
  }

  class AsyncLLMEngine {
    const tracker: RequestTracker
    var phase: Phase
    var pending: seq<int>  // taken from the tracker and not yet sent to the engine
    var toAbort: set<int>  // taken from the tracker, to be aborted after that
    var live: set<int>  // the unfinished requests the engine holds

    /** No stream is lost, and none will be at the next step. */
    ghost predicate Valid()
      reads this, tracker, tracker.issued
    {
      tracker.Valid() && tracker.AllHealthy() && tracker.NewDistinct() && Agreed()
    }

    ghost predicate Agreed()
      reads this, tracker`requestStreams, tracker`issued, tracker.issued
    {
      Held(phase, tracker.requestStreams.Keys, live, pending, toAbort) && Served()
    }

    /** A stream that is open belongs to a request that the engine holds or is about to get. */
    ghost predicate Served()
      reads `live, `pending, tracker`requestStreams, tracker`issued, tracker.issued
    {
      forall s | s in tracker.issued && tracker.Tabled(s) && !s.finished :: s.requestId in live || s.requestId in pending
    }

    /** What the streams in the table have received. */
    ghost function Sent(): map<int, seq<Item>>
      reads tracker`requestStreams, tracker`issued, tracker.issued
    {
      map id | id in tracker.requestStreams && tracker.requestStreams[id] in tracker.issued :: tracker.requestStreams[id].sent
    }

    ghost function State(): Loop
      reads this, tracker, tracker.issued
    {
      Loop(phase, live, pending, toAbort, tracker.finishedRequests, IdsOf(tracker.newRequests), Sent())
    }

    lemma SentIs()
      requires tracker.Valid()
      ensures Sent().Keys == tracker.requestStreams.Keys
      ensures forall id | id in tracker.requestStreams ::
        && tracker.requestStreams[id] in tracker.issued && tracker.requestStreams[id].requestId == id
        && Sent()[id] == tracker.requestStreams[id].sent
        && (Closed(Sent()[id]) <==> tracker.requestStreams[id].finished)
    {
      forall id | id in tracker.requestStreams
        ensures tracker.requestStreams[id] in tracker.issued
        ensures Closed(tracker.requestStreams[id].sent) <==> tracker.requestStreams[id].finished
      {
        assert tracker.Sane(tracker.requestStreams[id]);
      }
    }

    constructor ()
      ensures Valid() && phase == Idle && live == {} && fresh(tracker)
      ensures tracker.newRequests == [] && tracker.issued == {} && State() == START
    {
      tracker := new RequestTracker();
      phase, pending, toAbort, live := Idle, [], {}, {};
    }

    /** `add_request` (505-567) up to the tracker.  Adding an identifier that still waits spoils the streams. */
    method AddRequest(requestId: int) returns (r: Result<AsyncStream>)
      requires Valid()
      modifies tracker`newRequests, tracker`issued
      ensures tracker.Valid() && (r.Ok? <==> requestId !in tracker.requestStreams)
      ensures Valid() <==> !old(tracker.Waiting(requestId))
      ensures r.Ok? ==> fresh(r.value) && r.value.requestId == requestId && r.value.sent == []
      ensures tracker.newRequests == old(tracker.newRequests) + if r.Ok? then [r.value] else []
      ensures tracker.issued == old(tracker.issued) + if r.Ok? then {r.value} else {}
      ensures State() == Next(old(State()), Add(requestId))
    {
      hide AsyncStream.Valid, Held, RequestTracker.Valid;
      WaitingUntabled(requestId);
      SentIs();
      r := tracker.AddRequest(requestId);
      SentIs();
      assert Sent() == old(Sent());
    }

    lemma WaitingUntabled(requestId: int)
      requires tracker.Valid()
      ensures tracker.Waiting(requestId) ==> requestId !in tracker.requestStreams
    {
    }

    /** `abort` (663-679). */
    method Abort(requestId: int)
      requires Valid()
      modifies tracker`finishedRequests, tracker.StreamOf(requestId)
      ensures Valid()
      ensures tracker.finishedRequests == old(tracker.finishedRequests) + [requestId]
      ensures requestId in tracker.requestStreams ==> tracker.requestStreams[requestId].finished
      ensures State() == Next(old(State()), Event.Abort(requestId))
    {
      hide AsyncStream.Valid, RequestTracker.Valid, Held;
      SentIs();
      tracker.AbortRequest(requestId);
      SentIs();
      ReceivedIs(old(Sent()), Sent(), requestId, [Stop]);
    }

    lemma StreamsApart()
      requires tracker.Valid()
      ensures forall id | id in tracker.requestStreams :: tracker.requestStreams[id] !in tracker.newRequests
    {
    }

    /** The stream of a request that the engine holds has been stopped. */
    ghost predicate Stopped(id: int)
      reads tracker`requestStreams, tracker`issued, tracker.issued
    {
      id in tracker.requestStreams && tracker.requestStreams[id] in tracker.issued && tracker.requestStreams[id].finished
    }

    /** A request that is in the table is stopped if and only if it is in the queue of those to be aborted. */
    lemma StoppedIff(id: int)
      requires Valid() && id in tracker.requestStreams
      ensures Stopped(id) <==> id in tracker.finishedRequests
    {
      assert tracker.Sane(tracker.requestStreams[id]);
    }

    lemma LiveTabled()
      requires Valid()
      ensures forall id | id in live && id !in toAbort :: id in tracker.requestStreams
      ensures forall i | 0 <= i < |pending| :: pending[i] in tracker.requestStreams && pending[i] !in toAbort
      ensures phase != Admitting ==> toAbort == {}
    {
    }

    lemma StoppedQueued()
      requires Valid() && phase == Idle
      ensures forall id | id in live && Stopped(id) :: id in IdSet(tracker.finishedRequests)
    {
      hide RequestTracker.Valid, Held, Served, Stopped;
      LiveTabled();
      forall id | id in live && Stopped(id) ensures id in IdSet(tracker.finishedRequests) {
        StoppedIff(id);
      }
    }

    /** To the first await of `engine_step` (444-445).  Every stopped request that the engine holds is to be aborted. */
    method BeginStep()
      requires Valid() && phase == Idle
      modifies `phase, `pending, `toAbort, tracker`finishedRequests, tracker`newRequests, tracker`requestStreams
      modifies tracker.newRequests
      ensures Valid() && phase == Admitting && tracker.newRequests == [] && tracker.finishedRequests == []
      ensures toAbort == IdSet(old(tracker.finishedRequests))
      ensures pending == Outside(IdsOf(old(tracker.newRequests)), toAbort)
      ensures forall id | id in live && old(Stopped(id)) :: id in toAbort
      ensures State() == Drained(old(State()))
    {
      hide RequestTracker.Valid, RequestTracker.AllHealthy, RequestTracker.NewDistinct, Held, Outside, IdsOf, IdSet, Stopped;
      hide AsyncLLMEngine.Sent, AsyncLLMEngine.Served;
      StoppedQueued();
      ghost var streams, waiting, before := tracker.requestStreams.Keys, tracker.newRequests, pending;
      AtIdle();
      TakeOver();
      phase := Admitting;
      HeldAtStart(streams, live, waiting, toAbort);
      NoIds();
    }

    lemma AtIdle()
      requires Valid() && phase == Idle
      ensures Held(Idle, tracker.requestStreams.Keys, live, [], {})
      ensures StreamsDistinct(tracker.newRequests) && forall s | s in tracker.newRequests :: s.requestId !in tracker.requestStreams.Keys
    {
      hide Held, RequestTracker.AllHealthy;
      tracker.WaitApart();
      NoneAtIdle(tracker.requestStreams.Keys, live, pending, toAbort);
    }

    /** What the tracker hands over. */
    method TakeOver()
      requires Valid() && phase == Idle
      modifies `pending, `toAbort, tracker`finishedRequests, tracker`newRequests, tracker`requestStreams, tracker.newRequests
      ensures tracker.Valid() && tracker.AllHealthy() && tracker.NewDistinct() && Served()
      ensures tracker.newRequests == [] && tracker.finishedRequests == []
      ensures toAbort == IdSet(old(tracker.finishedRequests))
      ensures pending == Outside(IdsOf(old(tracker.newRequests)), toAbort)
      ensures tracker.requestStreams.Keys == old(tracker.requestStreams.Keys) - toAbort + IdSet(pending)
      ensures Sent() == map id | id in old(Sent()).Keys - toAbort + IdSet(pending) :: if id in IdSet(pending) then [] else old(Sent())[id]
    {
      hide RequestTracker.Valid, RequestTracker.AllHealthy, Held, Outside, IdsOf, IdSet, Settled, Filed, AsyncLLMEngine.Sent;
      hide Closed, StreamsDistinct, NoRepeats, DistinctBut, AsyncStream.Valid, RequestTracker.Sane, RequestTracker.Healthy;
      SentIs();
      ghost var sent, streams, waiting := Sent(), tracker.requestStreams, tracker.newRequests;
      AtIdle();
      StreamsApart();
      NoneLeft();
      assert forall s | s in tracker.issued && s.requestId in streams && streams[s.requestId] == s && !s.finished :: s.requestId in live;
      pending, toAbort := tracker.GetNewAndFinishedRequests();
      NoneTwice(waiting, toAbort);
      FiledDomain(streams - toAbort, waiting, toAbort);
      SentIs();
      assert forall id | id in streams :: streams[id] !in waiting && streams[id].sent == sent[id];
      DrainedSent(streams, waiting, sent);
      StillServed(streams, waiting);
    }

    lemma NoneLeft()
      requires Valid() && phase == Idle
      ensures pending == []
    {
      hide RequestTracker.Valid, RequestTracker.AllHealthy;
    }

    lemma StillServed(streams: map<int, AsyncStream>, waiting: seq<AsyncStream>)
      requires tracker.requestStreams == Filed(streams - toAbort, waiting, toAbort) && pending == Outside(IdsOf(waiting), toAbort)
      requires forall s | s in tracker.issued && s.requestId in streams && streams[s.requestId] == s && !s.finished :: s.requestId in live
      ensures Served()
    {
      hide Filed, IdSet, Outside, IdsOf;
      forall s | s in tracker.issued && tracker.Tabled(s) && !s.finished
        ensures s.requestId in live || s.requestId in pending
      {
        InIdSet(s.requestId, pending);
        OutsideHas(waiting, toAbort, s.requestId);
        if s.requestId !in pending {
          FiledOther(streams - toAbort, waiting, toAbort, s.requestId);
        }
      }
    }

    lemma DrainedSent(streams: map<int, AsyncStream>, waiting: seq<AsyncStream>, sent: map<int, seq<Item>>)
      requires tracker.requestStreams == Filed(streams - toAbort, waiting, toAbort) && Settled(waiting, toAbort)
      requires pending == Outside(IdsOf(waiting), toAbort)
      requires Sent().Keys == tracker.requestStreams.Keys && sent.Keys == streams.Keys
      requires forall id | id in tracker.requestStreams :: Sent()[id] == tracker.requestStreams[id].sent
      requires forall id | id in streams :: streams[id].sent == sent[id]
      ensures Sent() == map id | id in sent.Keys - toAbort + IdSet(pending) :: if id in IdSet(pending) then [] else sent[id]
    {
      hide Filed, IdSet, Outside, IdsOf, Settled;
      FiledDomain(streams - toAbort, waiting, toAbort);
      forall id | id in tracker.requestStreams
        ensures tracker.requestStreams[id].sent == if id in IdSet(pending) then [] else sent[id]
      {
        if id in IdSet(pending) {
          FiledNew(streams - toAbort, waiting, toAbort, id);
        } else {
          OutsideHas(waiting, toAbort, id);
          FiledOther(streams - toAbort, waiting, toAbort, id);
        }
      }
    }

    /** One turn of the loop that sends new requests to the engine (447-463).  A request the engine refuses gets the error
        and a stop marker.  One that was aborted since the step began enters the engine all the same. */
    method AdmitNext(valid: bool, tag: int) returns (r: Result<()>)
      requires Valid() && phase == Admitting && pending != []
      modifies `pending, `live, tracker`finishedRequests, tracker.StreamOf(pending[0])
      ensures Valid() && r.Ok? && pending == old(pending)[1..]
      ensures old(pending)[0] !in old(live)
      ensures live == old(live) + if valid then {old(pending)[0]} else {}
      ensures valid ==> (Stopped(old(pending)[0]) <==> old(pending)[0] in tracker.finishedRequests)
      ensures State() == Admitted(old(State()), valid, tag)
    {
      hide AsyncStream.Valid, RequestTracker.Valid, Held, Stopped;
      SentIs();
      var requestId := pending[0];
      LiveTabled();
      StoppedIff(requestId);
      HeldNext(tracker.requestStreams.Keys, live, pending, toAbort);
      pending := pending[1..];
      if valid {
        live := live + {requestId};
        return Ok(());
      }
      r := tracker.ProcessException(requestId, tag);
      SentIs();
      ReceivedIs(old(Sent()), Sent(), requestId, [Failure(tag), Stop]);
    }

    /** Aborting what clients gave up (464-465).  Of the requests that are left, just those are stopped that were aborted
        since the step began. */
    method AbortFinished()
      requires Valid() && phase == Admitting && pending == []
      modifies `phase, `toAbort, `live
      ensures Valid() && phase == Stepping && live == old(live) - old(toAbort)
      ensures forall id | id in live :: Stopped(id) <==> id in tracker.finishedRequests
      ensures State() == old(State()).(phase := Stepping, live := live, toAbort := {})
    {
      hide RequestTracker.Valid, Stopped;
      LiveTabled();
      forall id | id in live && id !in toAbort ensures Stopped(id) <==> id in tracker.finishedRequests {
        StoppedIff(id);
      }
      live, toAbort := live - toAbort, {};
      phase := Stepping;
    }

    /** One turn of the loop over the outputs (473-475). */
    method PutOutput(output: Sample) returns (r: Result<()>)
      requires Valid() && phase == Stepping && output.requestId in live
      modifies `live, tracker`finishedRequests, tracker.StreamOf(output.requestId)
      ensures Valid() && r.Ok? && live == old(live) - if output.last then {output.requestId} else {}
      ensures output.requestId in tracker.requestStreams
      ensures var s := tracker.requestStreams[output.requestId];
        && s.finished == (output.last || old(s.finished))
        && s.sent == old(s.sent)
             + (if old(s.finished) then [] else [Output(output.tag)] + if output.last then [Stop] else [])
      ensures State() == Answered(old(State()), output)
    {
      hide AsyncStream.Valid, RequestTracker.Valid, AsyncLLMEngine.Sent, Closed;
      SentIs();
      r := tracker.ProcessRequestOutput(output.requestId, output.tag, output.last);
      SentIs();
      ReceivedIs(old(Sent()), Sent(), output.requestId, [Output(output.tag)] + if output.last then [Stop] else []);
      if output.last {
        live := live - {output.requestId};
      }
    }

    /** The same for an output that may name no request of the engine. */
    method PutIfHeld(output: Sample) returns (r: Result<()>)
      requires Valid() && phase == Stepping
      modifies `live, tracker`finishedRequests, tracker.issued
      ensures Valid() && r.Ok? && live == old(live) - if output.last then {output.requestId} else {}
      ensures forall s | s in tracker.issued :: Took(s.sent, s.finished, old(s.sent), old(s.finished),
        tracker.Tabled(s) && s.requestId in old(live) && s.requestId == output.requestId, output)
      ensures State() == Answered(old(State()), output)
    {
      hide RequestTracker.Valid, AsyncStream.Valid, Held, Served;
      r := Ok(());
      TabledIssued(output.requestId);
      if output.requestId in live {
        r := PutOutput(output);
      }
    }

    /** The last piece of `engine_step` (473-477).  Outputs name only requests the engine still holds: `outs` may be
        anything, and what is left of it is what the engine can have produced. */
    method PutOutputs(outs: seq<Sample>) returns (r: Result<()>)
      requires Valid() && phase == Stepping
      modifies `live, `phase, tracker`finishedRequests, tracker.issued
      ensures Valid() && r.Ok? && phase == Idle && live == old(live) - Ended(outs)
      ensures forall s | s in tracker.issued ::
        Fed(s.requestId, s.sent, s.finished, old(s.sent), old(s.finished),
          tracker.Tabled(s) && s.requestId in old(live), outs)
      ensures State() == AllAnswered(old(State()), outs).(phase := Idle)
    {
      hide RequestTracker.Valid, AsyncStream.Valid, Held, Served, Fed, Ended, Took, AllAnswered, Answered;
      NothingFed(outs);
      NoneAnswered(State());
      for i := 0 to |outs|
        invariant Valid() && phase == Stepping && live == old(live) - Ended(outs[..i])
        invariant forall s | s in tracker.issued ::
          Fed(s.requestId, s.sent, s.finished, old(s.sent), old(s.finished),
          tracker.Tabled(s) && s.requestId in old(live), outs[..i])
        invariant State() == AllAnswered(old(State()), outs[..i])
      {
        EndedMore(outs, i);
        AnsweredMore(old(State()), outs, i);
        r := PutIfHeld(outs[i]);
        if r.Err? {
          return;
        }
        FedMore(outs, i);
      }
      assert outs[..|outs|] == outs;
      HeldIdle(tracker.requestStreams.Keys, live, pending, toAbort);
      phase := Idle;
      return Ok(());
    }

    lemma TabledIssued(requestId: int)
      requires Valid()
      ensures tracker.StreamOf(requestId) <= tracker.issued
      ensures requestId in tracker.requestStreams ==> tracker.requestStreams[requestId].requestId == requestId
    {
    }

    /** The loop goes on to its next await. */
    method Resume(valid: bool, tag: int, outs: seq<Sample>) returns (r: Result<()>)
      requires Valid()
      modifies this, tracker`finishedRequests, tracker`newRequests, tracker`requestStreams, tracker.issued
      ensures Valid() && r.Ok?
      ensures old(phase) == Idle ==>
        && phase == Admitting && live == old(live) && toAbort == IdSet(old(tracker.finishedRequests))
        && (forall id | id in live && old(Stopped(id)) :: id in toAbort)
        && pending == Outside(IdsOf(old(tracker.newRequests)), toAbort)
      ensures old(phase) == Admitting && old(pending) == [] ==>
        && phase == Stepping && live == old(live) - old(toAbort)
      ensures old(phase) == Admitting && old(pending) != [] ==>
        && phase == Admitting && pending == old(pending)[1..] && old(pending)[0] !in old(live) + old(toAbort)
        && toAbort == old(toAbort)
        && live == old(live) + if valid then {old(pending)[0]} else {}
      ensures old(phase) == Stepping ==>
        && phase == Idle && live == old(live) - Ended(outs)
        && forall s | s in tracker.issued ::
          Fed(s.requestId, s.sent, s.finished, old(s.sent), old(s.finished),
          tracker.Tabled(s) && s.requestId in old(live), outs)
      ensures State() == Next(old(State()), Event.Resume(valid, tag, outs))
    {
      hide RequestTracker.Valid, AsyncStream.Valid, Held, Served, Fed, Ended, IdSet, Outside;
      hide IdsOf, Stopped, Drained, Admitted, AllAnswered;
      r := Ok(());
      match phase
      case Idle =>
        NewIssued();
        BeginStep();
      case Admitting =>
        if pending == [] {
          AbortFinished();
        } else {
          LiveTabled();
          TabledIssued(pending[0]);
          r := AdmitNext(valid, tag);
        }
      case Stepping =>
        r := PutOutputs(outs);
    }

    lemma NewIssued()
      requires tracker.Valid()
      ensures forall s | s in tracker.newRequests :: s in tracker.issued
    {
    }
  }

  /** The requests whose last output is among these. */
  function Ended(outs: seq<Sample>): set<int> { set o | o in outs && o.last :: o.requestId }

  lemma EndedMore(outs: seq<Sample>, i: nat)
    requires i < |outs|
    ensures Ended(outs[..i + 1]) == Ended(outs[..i]) + if outs[i].last then {outs[i].requestId} else {}
  {
    assert outs[..i + 1] == outs[..i] + [outs[i]];
  }

  /** What these outputs put into the stream of a request: nothing after its last output and the stop marker. */
  ghost function Items(outs: seq<Sample>, requestId: int): seq<Item> {
    if outs == [] then []
    else
      var front, o := outs[..|outs| - 1], outs[|outs| - 1];
      if o.requestId != requestId || requestId in Ended(front) then Items(front, requestId)
      else Items(front, requestId) + [Output(o.tag)] + if o.last then [Stop] else []
  }

  /** What became of a stream; `held` if it was that of a request the engine held. */
  ghost predicate Fed(id: int, sent': seq<Item>, finished': bool, sent: seq<Item>, finished: bool, held: bool,
    outs: seq<Sample>)
  {
    && finished' == (finished || (held && id in Ended(outs)))
    && sent' == sent + if held && !finished then Items(outs, id) else []
  }

  lemma NothingFed(outs: seq<Sample>)
    ensures Ended(outs[..0]) == {}
    ensures forall id, sent, finished, held :: Fed(id, sent, finished, sent, finished, held, outs[..0])
  {
  }

  /** One output's effect on a stream; `hit` if it is for that stream. */
  ghost predicate Took(sent': seq<Item>, finished': bool, sent: seq<Item>, finished: bool, hit: bool, o: Sample) {
    if hit then
      && finished' == (o.last || finished)
      && sent' == sent + if finished then [] else [Output(o.tag)] + if o.last then [Stop] else []
    else finished' == finished && sent' == sent
  }

  lemma FedMoreAt(id: int, sent': seq<Item>, finished': bool, sent'': seq<Item>, finished'': bool,
      sent: seq<Item>, finished: bool, held: bool, outs: seq<Sample>, i: nat)
    requires i < |outs| && Fed(id, sent', finished', sent, finished, held, outs[..i])
    requires Took(sent'', finished'', sent', finished',
      held && id !in Ended(outs[..i]) && id == outs[i].requestId, outs[i])
    ensures Fed(id, sent'', finished'', sent, finished, held, outs[..i + 1])
  {
    EndedMore(outs, i);
    assert outs[..i + 1][..i] == outs[..i];
  }

  lemma FedMore(outs: seq<Sample>, i: nat)
    requires i < |outs|
    ensures forall id, sent', finished', sent'', finished'', sent, finished, held, hit |
      && Fed(id, sent', finished', sent, finished, held, outs[..i])
      && Took(sent'', finished'', sent', finished', hit, outs[i])
      && hit == (held && id !in Ended(outs[..i]) && id == outs[i].requestId) ::
      Fed(id, sent'', finished'', sent, finished, held, outs[..i + 1])
  {
    forall id, sent', finished', sent'', finished'', sent, finished, held, hit |
      && Fed(id, sent', finished', sent, finished, held, outs[..i])
      && Took(sent'', finished'', sent', finished', hit, outs[i])
      && hit == (held && id !in Ended(outs[..i]) && id == outs[i].requestId)
      ensures Fed(id, sent'', finished'', sent, finished, held, outs[..i + 1])
    {
      FedMoreAt(id, sent', finished', sent'', finished'', sent, finished, held, outs, i);
    }
  }

  lemma HeldIdle(streams: set<int>, live: set<int>, pending: seq<int>, toAbort: set<int>)
    requires Held(Stepping, streams, live, pending, toAbort)
    ensures Held(Idle, streams, live, pending, toAbort)
  {
  }

  /** Which requests are where: the engine is only given requests it does not hold, and outside of admission it holds only
      requests that have a stream. */
  ghost predicate Held(phase: Phase, streams: set<int>, live: set<int>, pending: seq<int>, toAbort: set<int>) {
    && live <= streams + toAbort
    && (forall i | 0 <= i < |pending| :: pending[i] in streams && pending[i] !in live)
    && (forall i, j | 0 <= i < j < |pending| :: pending[i] != pending[j])
    && toAbort !! streams
    && (phase != Admitting ==> pending == [] && toAbort == {})
  }

  lemma InIdSet(x: int, s: seq<int>)
    ensures x in s <==> x in IdSet(s)
  {
  }

  lemma {:induction false} OutsideApart(ids: seq<int>, out: set<int>)
    requires forall i, j | 0 <= i < j < |ids| :: ids[i] != ids[j]
    ensures var r := Outside(ids, out); forall i, j | 0 <= i < j < |r| :: r[i] != r[j]
  {
    if ids != [] {
      var front, last := ids[..|ids| - 1], ids[|ids| - 1];
      OutsideApart(front, out);
      OutsideIdSet(front, out);
      InIdSet(last, Outside(front, out));
      InIdSet(last, front);
    }
  }

  lemma HeldNext(streams: set<int>, live: set<int>, pending: seq<int>, toAbort: set<int>)
    requires Held(Admitting, streams, live, pending, toAbort) && pending != []
    ensures pending[0] in streams && pending[0] !in live
    ensures Held(Admitting, streams, live, pending[1..], toAbort)
    ensures Held(Admitting, streams, live + {pending[0]}, pending[1..], toAbort)
  {
  }

  lemma NoneAtIdle(streams: set<int>, live: set<int>, pending: seq<int>, toAbort: set<int>)
    requires Held(Idle, streams, live, pending, toAbort)
    ensures pending == [] && toAbort == {}
  {
  }

  lemma HeldAtStart(streams: set<int>, live: set<int>, waiting: seq<AsyncStream>, finished: set<int>)
    requires Held(Idle, streams, live, [], {})
    requires StreamsDistinct(waiting) && forall s | s in waiting :: s.requestId !in streams
    ensures var admitted := Outside(IdsOf(waiting), finished);
      Held(Admitting, streams - finished + IdSet(admitted), live, admitted, finished)
  {
    var ids := IdsOf(waiting);
    var admitted := Outside(ids, finished);
    OutsideIdSet(ids, finished);
    OutsideApart(ids, finished);
    forall i | 0 <= i < |admitted| ensures admitted[i] in IdSet(admitted) && admitted[i] !in live {
      InIdSet(admitted[i], admitted);
      InIdSet(admitted[i], ids);
      var k :| 0 <= k < |ids| && ids[k] == admitted[i];
      assert waiting[k] in waiting;
    }
  }

  function AddedBy(events: seq<Event>): set<int> {
    set e | e in events && e.Add? :: e.requestId
  }

  /** No identifier is used for two requests. */
  predicate UniqueIds(events: seq<Event>) {
    forall i, j | 0 <= i < j < |events| && events[i].Add? && events[j].Add? :: events[i].requestId != events[j].requestId
  }

  /** What clients can count on: the stream is well-formed, and it is stopped, or its request waits for the next step, or
      the engine holds the request or is about to get it. */
  ghost predicate Attended(engine: AsyncLLMEngine, s: AsyncStream)
    reads engine, engine.tracker, s
  {
    && Shape(s.sent, s.finished)
    && (s.finished || s in engine.tracker.newRequests
        || (engine.tracker.Tabled(s) && (s.requestId in engine.live || s.requestId in engine.pending)))
  }

  lemma AllAttended(engine: AsyncLLMEngine)
    requires engine.Valid()
    ensures forall s | s in engine.tracker.issued :: Attended(engine, s)
  {
  }

  /** Any interleaving of clients with the loop, up to the first `Add` of an identifier that still waits: nothing ever
      raises, and every stream is attended to.  When no identifier is used twice there is no such `Add`, and each gets a
      stream. */
  method Run(events: seq<Event>) returns (engine: AsyncLLMEngine, r: Result<()>, done: nat)
    ensures fresh(engine) && engine.Valid() && r.Ok? && done <= |events|
    ensures done < |events| ==> events[done].Add? && engine.tracker.Waiting(events[done].requestId)
    ensures engine.State() == After(START, events[..done])
    ensures Requests(engine.tracker.issued) <= AddedBy(events[..done])
    ensures forall s | s in engine.tracker.issued :: Attended(engine, s)
    ensures UniqueIds(events) ==> done == |events| && Requests(engine.tracker.issued) == AddedBy(events)
  {
    hide RequestTracker.Valid, AsyncLLMEngine.Valid, UniqueIds, AddedBy, Requests, Attended, RequestTracker.Waiting, Next, After;
    hide AsyncLLMEngine.State, AsyncLLMEngine.Stopped, Fed, IdSet, Outside, IdsOf;
    engine := new AsyncLLMEngine();
    r, done := Ok(()), 0;
    NoRequests(events);
    NoEvents(events);
    while done < |events|
      invariant done <= |events| && engine.Valid() && r.Ok?
      invariant engine.State() == After(START, events[..done])
      invariant fresh(engine) && fresh(engine.tracker) && fresh(engine.tracker.issued)
      invariant Requests(engine.tracker.issued) <= AddedBy(events[..done])
      invariant UniqueIds(events) ==> Requests(engine.tracker.issued) == AddedBy(events[..done])
    {
      AddedGrows(events, done);
      AfterMore(START, events, done);
      match events[done] {
        case Add(requestId) =>
          NotTaken(engine, requestId);
          if engine.tracker.Waiting(requestId) {
            break;
          }
          ghost var issued := engine.tracker.issued;
          var added := engine.AddRequest(requestId);
          if added.Ok? {
            OneMore(issued, added.value);
          } else {
            assert engine.tracker.issued == issued;
          }
        case Abort(requestId) =>
          engine.TabledIssued(requestId);
          engine.Abort(requestId);
        case Resume(valid, tag, outs) =>
          r := engine.Resume(valid, tag, outs);
      }
      done := done + 1;
    }
    AllAttended(engine);
    assert events[..|events|] == events;
  }

  /** A stopped request that the engine holds when a step begins is gone when the model runs, whatever clients do in the
      meantime: only what is aborted after the beginning of a step can be in the engine while it steps. */
  method StoppedLeave(engine: AsyncLLMEngine, events: seq<Event>) returns (done: nat, ghost stopped: set<int>)
    requires engine.Valid() && engine.phase == Idle
    modifies engine, engine.tracker, engine.tracker.issued
    ensures engine.Valid() && done <= |events| && stopped == old(set id | id in engine.live && engine.Stopped(id))
    ensures done < |events| ==> engine.phase == Stepping || (events[done].Add? && engine.tracker.Waiting(events[done].requestId))
    ensures engine.phase == Stepping ==> engine.live !! stopped
  {
    hide RequestTracker.Valid, AsyncLLMEngine.Valid, RequestTracker.Waiting, AsyncLLMEngine.Stopped, IdSet, Outside, IdsOf;
    stopped := set id | id in engine.live && engine.Stopped(id);
    ghost var issued := engine.tracker.issued;
    var r := engine.Resume(true, 0, []);
    done := 0;
    while done < |events| && engine.phase == Admitting
      invariant engine.Valid() && done <= |events| && issued <= engine.tracker.issued && fresh(engine.tracker.issued - issued)
      invariant engine.phase == Admitting ==> stopped <= engine.toAbort
      invariant engine.phase == Admitting || (engine.phase == Stepping && engine.live !! stopped)
    {
      match events[done] {
        case Add(requestId) =>
          if engine.tracker.Waiting(requestId) {
            return;
          }
          var added := engine.AddRequest(requestId);
        case Abort(requestId) =>
          engine.TabledIssued(requestId);
          engine.Abort(requestId);
        case Resume(valid, tag, outs) =>
          r := engine.Resume(valid, tag, outs);
      }
      done := done + 1;
    }
  }

  ghost function Requests(streams: set<AsyncStream>): set<int> {
    set s | s in streams :: s.requestId
  }

  lemma NoRequests(events: seq<Event>)
    ensures Requests({}) == AddedBy(events[..0])
  {
  }

  lemma OneMore(streams: set<AsyncStream>, s: AsyncStream)
    ensures Requests(streams + {s}) == Requests(streams) + {s.requestId}
  {
  }

  lemma NotTaken(engine: AsyncLLMEngine, requestId: int)
    requires engine.Valid()
    ensures requestId !in Requests(engine.tracker.issued) ==>
      !engine.tracker.Waiting(requestId) && requestId !in engine.tracker.requestStreams
  {
  }

  lemma AddedGrows(events: seq<Event>, i: nat)
    requires i < |events|
    ensures AddedBy(events[..i + 1]) == AddedBy(events[..i]) + if events[i].Add? then {events[i].requestId} else {}
    ensures UniqueIds(events) && events[i].Add? ==> events[i].requestId !in AddedBy(events[..i])
  {
    assert events[..i + 1] == events[..i] + [events[i]];
  }
}
