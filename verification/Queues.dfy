/** The three queues of the scheduler as values: what one call may do to them, and first come, first served. */
module Queues {
  import opened Sequences
  import opened GroupStates
  import opened Rosters
  import opened Policy

  // ---- sums over queues ---------------------------------------------------------------------------------------

  /** The sequences that the groups may come to run. */
  ghost function SumMax(groups: seq<SequenceGroup>): nat {
    if groups == [] then 0 else groups[0].MaxNumRunningSeqs() + SumMax(groups[1..])
  }

  /** The live sequences of the groups, each of which decodes one token in a step. */
  ghost function SumLive(groups: seq<SequenceGroup>): nat {
    if groups == [] then 0 else |Unfinished(groups[0].seqs)| + SumLive(groups[1..])
  }

  lemma {:induction false} SumsConcat(a: seq<SequenceGroup>, b: seq<SequenceGroup>)
    ensures SumMax(a + b) == SumMax(a) + SumMax(b)
    ensures SumLive(a + b) == SumLive(a) + SumLive(b)
  {
    if a == [] {
      assert a + b == b;
    } else {
      assert (a + b)[1..] == a[1..] + b;
      SumsConcat(a[1..], b);
    }
  }

  lemma SumsOne(g: SequenceGroup)
    ensures SumMax([g]) == g.MaxNumRunningSeqs() && SumLive([g]) == |Unfinished(g.seqs)|
  {
    assert [g][1..] == [];
  }

  /** No group runs more sequences than it is accounted for. */
  lemma {:induction false} LiveWithinMax(groups: seq<SequenceGroup>)
    requires forall g | g in groups :: GroupOk(g)
    ensures SumLive(groups) <= SumMax(groups)
  {
    if groups != [] {
      LiveWithinMax(groups[1..]);
      UnfinishedFewer(groups[0].seqs);
      assert groups[0] in groups;
    }
  }

  lemma {:induction false} SortKeepsSums(now: real, groups: seq<SequenceGroup>)
    ensures SumMax(SortByPriority(now, groups)) == SumMax(groups)
  {
    if groups != [] {
      SortKeepsSums(now, groups[1..]);
      InsertAddsTo(now, groups[0], SortByPriority(now, groups[1..]));
    }
  }

  lemma {:induction false} InsertAddsTo(now: real, g: SequenceGroup, sorted: seq<SequenceGroup>)
    ensures SumMax(Insert(now, g, sorted)) == g.MaxNumRunningSeqs() + SumMax(sorted)
  {
    if sorted != [] && Priority(now, sorted[0]) > Priority(now, g) {
      InsertAddsTo(now, g, sorted[1..]);
      assert Insert(now, g, sorted)[1..] == Insert(now, g, sorted[1..]);
    } else {
      assert Insert(now, g, sorted)[1..] == sorted;
    }
  }

  lemma {:induction false} SortKeepsTagged(now: real, groups: seq<SequenceGroup>, place: Place)
    ensures Tagged(SortByPriority(now, groups), place) == Tagged(groups, place)
  {
    if groups != [] {
      SortKeepsTagged(now, groups[1..], place);
      InsertTagged(now, groups[0], SortByPriority(now, groups[1..]), place);
    }
  }

  lemma {:induction false} InsertTagged(now: real, g: SequenceGroup, sorted: seq<SequenceGroup>, place: Place)
    ensures Tagged(Insert(now, g, sorted), place) == multiset{Entry(g, place)} + Tagged(sorted, place)
  {
    if sorted != [] && Priority(now, sorted[0]) > Priority(now, g) {
      InsertTagged(now, g, sorted[1..], place);
      assert Insert(now, g, sorted)[1..] == Insert(now, g, sorted[1..]);
    } else {
      assert Insert(now, g, sorted)[1..] == sorted;
    }
  }

  // ---- the turns of the running queue -------------------------------------------------------------------------

  /** The turn of a running group: `free` blocks were free when it came, `victims` were preempted in it, and `stays`
      says whether the group goes on to decode. */
  datatype Turn = Turn(group: SequenceGroup, free: int, victims: seq<SequenceGroup>, stays: bool)

  /** Groups are preempted just when the free blocks fall short, in the end the group itself. */
  ghost predicate TurnOk(t: Turn) {
    && (t.victims == [] <==> |t.group.WithStatus(Running)| <= t.free)
    && (!t.stays ==> t.victims != [] && t.victims[0] == t.group)
  }

  ghost function Staying(t: Turn): seq<SequenceGroup> { if t.stays then [t.group] else [] }

  ghost function Stayed(turns: seq<Turn>): seq<SequenceGroup> {
    if turns == [] then [] else Staying(turns[0]) + Stayed(turns[1..])
  }

  /** All victims in the order of the queue, from which they were taken back to front. */
  ghost function Gone(turns: seq<Turn>): seq<SequenceGroup> {
    if turns == [] then [] else Gone(turns[1..]) + turns[0].victims
  }

  ghost function Pressing(t: Turn): seq<SequenceGroup> { if t.victims == [] then [] else [t.group] }

  /** The groups that had to make room. */
  ghost function Pressed(turns: seq<Turn>): seq<SequenceGroup> {
    if turns == [] then [] else Pressing(turns[0]) + Pressed(turns[1..])
  }

  /** The groups that were kept without making room. */
  ghost function AtEase(turns: seq<Turn>): seq<SequenceGroup> {
    if turns == [] then [] else (if turns[0].victims == [] then [turns[0].group] else []) + AtEase(turns[1..])
  }

  /** The groups preempted in the turn of another. */
  ghost function Displaced(turns: seq<Turn>): seq<SequenceGroup> {
    if turns == [] then []
    else Displaced(turns[1..]) + if turns[0].stays || turns[0].victims == [] then turns[0].victims else turns[0].victims[1..]
  }

  /** The turns take the groups of `queue` from its front and the victims from its back, and leave `left`. */
  ghost predicate Plays(turns: seq<Turn>, queue: seq<SequenceGroup>, left: seq<SequenceGroup>) {
    if turns == [] then queue == left
    else
      && queue != [] && turns[0].group == queue[0]
      && if turns[0].stays then
           && |turns[0].victims| < |queue| && queue[|queue| - |turns[0].victims|..] == turns[0].victims
           && Plays(turns[1..], queue[1..|queue| - |turns[0].victims|], left)
         else turns[0].victims == queue && |turns| == 1 && left == []
  }

  /** The turns so far have split `queue` into `kept`, `left` and `victims`; `free` blocks were free before the first. */
  ghost predicate Account(turns: seq<Turn>, free: int, queue: seq<SequenceGroup>, left: seq<SequenceGroup>,
                          kept: seq<SequenceGroup>, victims: seq<SequenceGroup>)
  {
    && Plays(turns, queue, left) && (forall t | t in turns :: TurnOk(t))
    && Stayed(turns) == kept && Gone(turns) == victims
    && (turns != [] ==> turns[0].free == free)
  }

  lemma {:induction false} StayedGrows(turns: seq<Turn>, t: Turn)
    ensures Stayed(turns + [t]) == Stayed(turns) + Staying(t)
  {
    hide Staying;
    if turns == [] {
      assert [t][1..] == [] && Stayed([t]) == Staying(t) + Stayed([]);
    } else {
      assert (turns + [t])[1..] == turns[1..] + [t];
      StayedGrows(turns[1..], t);
    }
  }

  lemma {:induction false} GoneGrows(turns: seq<Turn>, t: Turn)
    ensures Gone(turns + [t]) == t.victims + Gone(turns)
  {
    if turns == [] {
      assert [t][1..] == [];
    } else {
      assert (turns + [t])[1..] == turns[1..] + [t];
      GoneGrows(turns[1..], t);
    }
  }

  lemma {:induction false} PressedGrows(turns: seq<Turn>, t: Turn)
    ensures Pressed(turns + [t]) == Pressed(turns) + Pressing(t)
  {
    hide Pressing;
    if turns == [] {
      assert [t][1..] == [] && Pressed([t]) == Pressing(t) + Pressed([]);
    } else {
      assert (turns + [t])[1..] == turns[1..] + [t];
      PressedGrows(turns[1..], t);
    }
  }

  lemma NoTurns(free: int, queue: seq<SequenceGroup>)
    ensures Account([], free, queue, queue, [], []) && SumMax(Pressed([])) == 0 && RequestIds(Pressed([])) == {}
  {
  }

  lemma {:induction false} PlaysOn(turns: seq<Turn>, queue: seq<SequenceGroup>, left: seq<SequenceGroup>, t: Turn,
                                   left': seq<SequenceGroup>)
    requires Plays(turns, queue, left) && left != [] && t.group == left[0]
    requires if t.stays then left[1..] == left' + t.victims else left' == [] && t.victims == left
    ensures Plays(turns + [t], queue, left')
    decreases turns
  {
    if turns == [] {
      assert [t][1..] == [];
      if t.stays {
        assert left == [t.group] + left' + t.victims;
      }
    } else {
      assert (turns + [t])[1..] == turns[1..] + [t];
      PlaysOn(turns[1..], queue[1..|queue| - |turns[0].victims|], left, t, left');
    }
  }

  lemma AccountGrows(turns: seq<Turn>, free: int, queue: seq<SequenceGroup>, left: seq<SequenceGroup>, kept: seq<SequenceGroup>,
                     victims: seq<SequenceGroup>, t: Turn, left': seq<SequenceGroup>)
    requires Account(turns, free, queue, left, kept, victims) && TurnOk(t) && (turns == [] ==> t.free == free)
    requires left != [] && t.group == left[0]
    requires if t.stays then left[1..] == left' + t.victims else left' == [] && t.victims == left
    ensures Account(turns + [t], free, queue, left', kept + (if t.stays then [t.group] else []), t.victims + victims)
    ensures SumMax(Pressed(turns + [t])) == SumMax(Pressed(turns)) + if t.victims == [] then 0 else t.group.MaxNumRunningSeqs()
    ensures RequestIds(Pressed(turns + [t])) == RequestIds(Pressed(turns)) + if t.victims == [] then {} else {t.group.requestId}
  {
    hide TurnOk, SequenceGroup.MaxNumRunningSeqs;
    StayedGrows(turns, t);
    GoneGrows(turns, t);
    PressedGrows(turns, t);
    PlaysOn(turns, queue, left, t, left');
    SumsConcat(Pressed(turns), [t.group]);
    SumsOne(t.group);
    assert Pressed(turns) + [] == Pressed(turns);
    forall g | g in Pressed(turns) + [t.group] ensures g in Pressed(turns) || g == t.group {
    }
    assert t.group in Pressed(turns) + [t.group];
  }

  /** If `g` had to make room, it has been taken off the count of running sequences, once. */
  ghost predicate TakenOff(g: SequenceGroup, pressed: bool, ids: set<int>, seqs: int, ids': set<int>, seqs': int) {
    && ids' == (ids - if pressed then {g.requestId} else {})
    && seqs' == seqs - if pressed && g.requestId in ids then g.MaxNumRunningSeqs() else 0
  }

  lemma OnceTaken(g: SequenceGroup, pressed: bool, ids0: set<int>, seqs0: int, ids: set<int>, seqs: int, ids': set<int>, seqs': int)
    requires TakenOff(g, pressed, ids0, seqs0, ids, seqs)
    requires ids' == ids - {g.requestId} && seqs' == seqs - if g.requestId in ids then g.MaxNumRunningSeqs() else 0
    ensures TakenOff(g, true, ids0, seqs0, ids', seqs')
  {
  }

  lemma NotTaken(g: SequenceGroup, ids: set<int>, seqs: int)
    ensures TakenOff(g, false, ids, seqs, ids, seqs)
  {
  }

  /** The turns so far, and what they have made of the count `seqs` of running sequences and of the requests `ids` that are
      counted in it.  All requests that have a turn are counted at first if `counted`. */
  ghost predicate Tally(turns: seq<Turn>, free: int, queue: seq<SequenceGroup>, left: seq<SequenceGroup>, kept: seq<SequenceGroup>,
                        victims: seq<SequenceGroup>, counted: bool, ids0: set<int>, seqs0: int, ids: set<int>, seqs: int)
  {
    && Account(turns, free, queue, left, kept, victims)
    && (left != [] ==> RequestIds(Pressed(turns)) <= RequestIds(kept))
    && ids == ids0 - RequestIds(Pressed(turns)) && (counted ==> seqs == seqs0 - SumMax(Pressed(turns)))
  }

  lemma TallyStart(free: int, queue: seq<SequenceGroup>, counted: bool, ids: set<int>, seqs: int)
    ensures Tally([], free, queue, queue, [], [], counted, ids, seqs, ids, seqs)
  {
    NoTurns(free, queue);
  }

  lemma TallyNext(turns: seq<Turn>, free: int, queue: seq<SequenceGroup>, left: seq<SequenceGroup>, kept: seq<SequenceGroup>,
                  victims: seq<SequenceGroup>, counted: bool, ids0: set<int>, seqs0: int, ids: set<int>, seqs: int,
                  t: Turn, left': seq<SequenceGroup>, ids': set<int>, seqs': int)
    requires Tally(turns, free, queue, left, kept, victims, counted, ids0, seqs0, ids, seqs)
    requires TurnOk(t) && (turns == [] ==> t.free == free) && left != [] && t.group == left[0]
    requires if t.stays then left[1..] == left' + t.victims else left' == [] && t.victims == left
    requires t.group.requestId !in RequestIds(kept) && (counted ==> t.group.requestId in ids0)
    requires TakenOff(t.group, t.victims != [], ids, seqs, ids', seqs')
    ensures Tally(turns + [t], free, queue, left', kept + (if t.stays then [t.group] else []), t.victims + victims,
                  counted, ids0, seqs0, ids', seqs')
  {
    hide Account, TurnOk, SequenceGroup.MaxNumRunningSeqs, Pressed, SumMax;
    AccountGrows(turns, free, queue, left, kept, victims, t, left');
    RequestsAppend(kept, t.group);
    assert kept + [] == kept;
  }

  lemma RequestsAppend(groups: seq<SequenceGroup>, g: SequenceGroup)
    ensures RequestIds(groups + [g]) == RequestIds(groups) + {g.requestId}
  {
    assert g in groups + [g];
  }

  lemma TallyEnds(turns: seq<Turn>, free: int, queue: seq<SequenceGroup>, left: seq<SequenceGroup>, kept: seq<SequenceGroup>,
                  victims: seq<SequenceGroup>, counted: bool, ids0: set<int>, seqs0: int, ids: set<int>, seqs: int)
    requires Tally(turns, free, queue, left, kept, victims, counted, ids0, seqs0, ids, seqs)
    ensures Account(turns, free, queue, left, kept, victims)
    ensures ids == ids0 - RequestIds(Pressed(turns)) && (counted ==> seqs == seqs0 - SumMax(Pressed(turns)))
  {
  }

  lemma TallyGone(turns: seq<Turn>, free: int, queue: seq<SequenceGroup>, left: seq<SequenceGroup>, kept: seq<SequenceGroup>,
                  victims: seq<SequenceGroup>, counted: bool, ids0: set<int>, seqs0: int, ids: set<int>, seqs: int)
    requires Tally(turns, free, queue, left, kept, victims, counted, ids0, seqs0, ids, seqs)
    ensures Stayed(turns) == kept && Gone(turns) == victims
  {
  }

  lemma {:induction false} NobodyGone(turns: seq<Turn>)
    requires Gone(turns) == []
    ensures Pressed(turns) == [] && SumMax(Pressed(turns)) == 0 && RequestIds(Pressed(turns)) == {}
  {
    if turns != [] {
      NobodyGone(turns[1..]);
    }
  }

  /** `_schedule_running` takes the groups that had to make room off the count of running sequences (401-405): what is
      left counts the groups that were kept at ease and, wrongly, those preempted in the turn of another. */
  lemma {:induction false} CountIs(turns: seq<Turn>)
    requires forall t | t in turns :: TurnOk(t)
    ensures SumMax(Stayed(turns)) + SumMax(Gone(turns)) - SumMax(Pressed(turns))
            == SumMax(AtEase(turns)) + SumMax(Displaced(turns))
  {
    if turns != [] {
      hide TurnOk, SequenceGroup.MaxNumRunningSeqs;
      var t, rest := turns[0], turns[1..];
      CountIs(rest);
      TurnCount(t);
      var staying := if t.stays then [t.group] else [];
      var pressed, eased := if t.victims == [] then [] else [t.group], if t.victims == [] then [t.group] else [];
      var displaced := if t.stays || t.victims == [] then t.victims else t.victims[1..];
      SumsConcat(staying, Stayed(rest));
      SumsConcat(Gone(rest), t.victims);
      SumsConcat(pressed, Pressed(rest));
      SumsConcat(eased, AtEase(rest));
      SumsConcat(Displaced(rest), displaced);
    }
  }

  lemma TurnCount(t: Turn)
    requires TurnOk(t)
    ensures var staying := if t.stays then [t.group] else [];
      var pressed, eased := if t.victims == [] then [] else [t.group], if t.victims == [] then [t.group] else [];
      var displaced := if t.stays || t.victims == [] then t.victims else t.victims[1..];
      SumMax(staying) + SumMax(t.victims) - SumMax(pressed) == SumMax(eased) + SumMax(displaced)
  {
    SumsOne(t.group);
  }

  /** The new tokens of the given members (`_get_num_new_tokens`, 1092-1113). */
  function NewTokens(seqs: seq<Sequence>): int {
    if seqs == [] then 0 else seqs[0].NumNewTokens() + NewTokens(seqs[1..])
  }

  /** For instance, two live members that return together count as two new tokens, where the scheduler asserts one. */
  lemma TwoReturn(a: Sequence, b: Sequence)
    requires a.stage.Decode? && b.stage.Decode?
    ensures NewTokens([a, b]) == 2
  {
    assert [a, b][1..] == [b];
    assert NewTokens([b]) == 1 + NewTokens([b][1..]) && [b][1..] == [];
  }

  lemma {:induction false} DecodingTokens(seqs: seq<Sequence>)
    requires forall s | s in seqs :: s.stage.Decode?
    ensures NewTokens(seqs) == |seqs|
  {
    if seqs != [] {
      DecodingTokens(seqs[1..]);
      assert seqs[0] in seqs;
    }
  }

  /** A decoding group computes one token for each live member. */
  lemma LiveTokens(g: SequenceGroup, status: Status)
    requires GroupOk(g) && AllLive(g, status) && Decoding(g) && !status.IsFinished()
    ensures g.WithStatus(status) == Unfinished(g.seqs) && NewTokens(g.WithStatus(status)) == |Unfinished(g.seqs)| > 0
  {
    SelectLive(g.seqs, status);
    UnfinishedIsSubsequence(g.seqs);
    DecodingTokens(Unfinished(g.seqs));
  }

  // ---- what becomes of the groups of a queue ------------------------------------------------------------------

  function Groups(scheduled: seq<ScheduledGroup>): (r: seq<SequenceGroup>)
    ensures |r| == |scheduled| && forall i | 0 <= i < |r| :: r[i] == scheduled[i].group
  {
    if scheduled == [] then [] else [scheduled[0].group] + Groups(scheduled[1..])
  }

  lemma {:induction false} GroupsGrow(scheduled: seq<ScheduledGroup>, s: ScheduledGroup)
    ensures Groups(scheduled + [s]) == Groups(scheduled) + [s.group]
  {
  }

  /** The victims that recomputation sends back to the waiting queue, and those that are swapped out. */
  function Recomputed(victims: seq<SequenceGroup>): seq<SequenceGroup> {
    if victims == [] then []
    else (if victims[0].MaxNumRunningSeqs() == 1 then [Preempted(victims[0])] else []) + Recomputed(victims[1..])
  }

  /** A group that loses its place on the GPU, and the queue it goes to. */
  function Evicted(v: SequenceGroup): Entry {
    if v.MaxNumRunningSeqs() == 1 then Entry(Preempted(v), InWaiting)
    else Entry(Restated(v, Running, Status.Swapped), InSwapped)
  }

  function SwappedAway(victims: seq<SequenceGroup>): seq<SequenceGroup> {
    if victims == [] then []
    else (if victims[0].MaxNumRunningSeqs() == 1 then [] else [Restated(victims[0], Running, Status.Swapped)])
         + SwappedAway(victims[1..])
  }

  lemma {:induction false} RecomputedConcat(a: seq<SequenceGroup>, b: seq<SequenceGroup>)
    ensures Recomputed(a + b) == Recomputed(a) + Recomputed(b)
  {
    if a == [] {
      assert a + b == b;
    } else {
      hide Preempted, SequenceGroup.MaxNumRunningSeqs;
      var ab := a + b;
      assert ab[0] == a[0] && ab[1..] == a[1..] + b;
      RecomputedConcat(a[1..], b);
      var first := if a[0].MaxNumRunningSeqs() == 1 then [Preempted(a[0])] else [];
      assert Recomputed(ab) == first + Recomputed(ab[1..]);
      assert Recomputed(a) == first + Recomputed(a[1..]);
    }
  }

  lemma {:induction false} SwappedConcat(a: seq<SequenceGroup>, b: seq<SequenceGroup>)
    ensures SwappedAway(a + b) == SwappedAway(a) + SwappedAway(b)
  {
    if a == [] {
      assert a + b == b;
    } else {
      hide Restated, SequenceGroup.MaxNumRunningSeqs;
      var ab := a + b;
      assert ab[0] == a[0] && ab[1..] == a[1..] + b;
      SwappedConcat(a[1..], b);
      var first := if a[0].MaxNumRunningSeqs() == 1 then [] else [Restated(a[0], Running, Status.Swapped)];
      assert SwappedAway(ab) == first + SwappedAway(ab[1..]);
      assert SwappedAway(a) == first + SwappedAway(a[1..]);
    }
  }

  lemma {:induction false} ReversedTwice<T>(s: seq<T>)
    ensures Reversed(Reversed(s)) == s
    ensures |Reversed(s)| == |s|
  {
    if s != [] {
      var front, last := s[..|s| - 1], s[|s| - 1];
      ReversedTwice(front);
      ReversedPrepends(Reversed(front), last);
      assert Reversed(s) == [last] + Reversed(front);
    }
  }

  lemma {:induction false} ReversedPrepends<T>(s: seq<T>, x: T)
    ensures Reversed([x] + s) == Reversed(s) + [x]
  {
    if s == [] {
      assert [x] + s == [] + [x];
    } else {
      var all := [x] + s;
      assert all[..|all| - 1] == [x] + s[..|s| - 1] && all[|all| - 1] == s[|s| - 1];
      ReversedPrepends(s[..|s| - 1], x);
    }
  }

  lemma ReversedGrows<T>(s: seq<T>, x: T)
    ensures Reversed(s + [x]) == [x] + Reversed(s)
  {
    assert (s + [x])[..|s|] == s;
  }

  /** Swapped groups that return to the running queue. */
  function Returned(groups: seq<SequenceGroup>): seq<SequenceGroup> {
    if groups == [] then [] else [Restated(groups[0], Status.Swapped, Running)] + Returned(groups[1..])
  }

  /** The first `back` groups have returned, `left` are left. */
  ghost predicate BackSoFar(sorted: seq<SequenceGroup>, back: nat, left: seq<SequenceGroup>, decode: seq<ScheduledGroup>) {
    && back <= |sorted| && left == sorted[back..] && Groups(decode) == Returned(sorted[..back])
    && forall s | s in decode :: s.chunk == 1
  }

  lemma ReturnedNext(sorted: seq<SequenceGroup>, back: nat, left: seq<SequenceGroup>, decode: seq<ScheduledGroup>)
    requires BackSoFar(sorted, back, left, decode) && left != []
    ensures back < |sorted| && left[0] == sorted[back]
    ensures var s := ScheduledGroup(Restated(left[0], Status.Swapped, Running), 1);
      && BackSoFar(sorted, back + 1, left[1..], decode + [s])
      && SumMax(Groups(decode + [s])) == SumMax(Groups(decode)) + left[0].MaxNumRunningSeqs()
      && SumLive(Groups(decode + [s])) == SumLive(Groups(decode)) + |Unfinished(left[0].seqs)|
  {
    hide Restated, SequenceGroup.MaxNumRunningSeqs;
    var g := sorted[back];
    var s := ScheduledGroup(Restated(g, Status.Swapped, Running), 1);
    assert sorted[..back + 1] == sorted[..back] + [g];
    ReturnedGrows(sorted[..back], g);
    GroupsGrow(decode, s);
    SumsConcat(Groups(decode), [s.group]);
    SumsOne(s.group);
    RestatedMax(g, Status.Swapped, Running);
  }

  /** The tokens of the live members, prompt and output. */
  ghost function TokensHeld(seqs: seq<Sequence>): nat {
    if seqs == [] then 0 else (if seqs[0].IsFinished() then 0 else |seqs[0].tokens|) + TokensHeld(seqs[1..])
  }

  /** The tokens of all live sequences of the groups. */
  ghost function SumTokens(groups: seq<SequenceGroup>): nat {
    if groups == [] then 0 else TokensHeld(groups[0].seqs) + SumTokens(groups[1..])
  }

  lemma {:induction false} TokensConcat(a: seq<SequenceGroup>, b: seq<SequenceGroup>)
    ensures SumTokens(a + b) == SumTokens(a) + SumTokens(b)
  {
    if a == [] {
      assert a + b == b;
    } else {
      assert (a + b)[1..] == a[1..] + b;
      TokensConcat(a[1..], b);
    }
  }

  lemma TokensMore(scheduled: seq<ScheduledGroup>, s: ScheduledGroup)
    ensures SumTokens(Groups(scheduled + [s])) == SumTokens(Groups(scheduled)) + TokensHeld(s.group.seqs)
  {
    GroupsGrow(scheduled, s);
    TokensConcat(Groups(scheduled), [s.group]);
    assert [s.group][1..] == [];
  }

  lemma {:induction false} TokensHeldAre(seqs: seq<Sequence>)
    ensures TokensHeld(seqs) == TokensHeld(Unfinished(seqs))
    ensures |Unfinished(seqs)| == 1 ==> TokensHeld(seqs) == |Unfinished(seqs)[0].tokens|
  {
    if seqs != [] {
      TokensHeldAre(seqs[1..]);
      UnfinishedIsSubsequence(seqs);
      if seqs[0].IsFinished() {
        assert Unfinished(seqs) == Unfinished(seqs[1..]);
      } else {
        assert Unfinished(seqs)[1..] == Unfinished(seqs[1..]);
        assert Unfinished(seqs)[0] in Unfinished(seqs);
        if |Unfinished(seqs)| == 1 {
          assert Unfinished(seqs[1..]) == [];
        }
      }
    }
  }

  /** A prompt that starts runs all tokens of its one live member. */
  lemma PromptTokens(g: SequenceGroup)
    requires g.WithStatus(Waiting) == Unfinished(g.seqs) && |g.WithStatus(Waiting)| == 1
    ensures TokensHeld(Start(g).group.seqs) == PromptLength(g)
  {
    TokensHeldAre(g.seqs);
    SameTokens(g.seqs, Start(g).group.seqs);
  }

  lemma {:induction false} SameTokens(a: seq<Sequence>, b: seq<Sequence>)
    requires |a| == |b| && forall i | 0 <= i < |a| :: a[i].tokens == b[i].tokens && (a[i].IsFinished() <==> b[i].IsFinished())
    ensures TokensHeld(a) == TokensHeld(b)
  {
    if a != [] {
      SameTokens(a[1..], b[1..]);
    }
  }

  lemma {:induction false} ReturnedGrows(groups: seq<SequenceGroup>, g: SequenceGroup)
    ensures Returned(groups + [g]) == Returned(groups) + [Restated(g, Status.Swapped, Running)]
  {
    if groups == [] {
      assert [g][1..] == [];
    } else {
      assert (groups + [g])[1..] == groups[1..] + [g];
      ReturnedGrows(groups[1..], g);
    }
  }

  // ---- prompts ------------------------------------------------------------------------------------------------

  /** What bounds the prompts that can ever run. */
  datatype Limits = Limits(promptLimit: nat, numGpuBlocks: nat, watermarkBlocks: nat, blockSize: nat)

  function PromptLength(g: SequenceGroup): nat {
    var waiting := g.WithStatus(Waiting);
    if waiting == [] then 0 else |waiting[0].tokens|
  }

  /** A prompt above the limit, or one that the GPU could not hold even when empty (611-640). */
  predicate TooLong(l: Limits, g: SequenceGroup)
    requires l.blockSize > 0
  {
    PromptLength(g) > l.promptLimit || l.numGpuBlocks < NumBlocks(PromptLength(g), l.blockSize) + l.watermarkBlocks
  }

  function Start(g: SequenceGroup): ScheduledGroup { ScheduledGroup(Restated(g, Waiting, Running), PromptLength(g)) }

  function Refusal(g: SequenceGroup): SequenceGroup { Restated(g, Waiting, FinishedIgnored) }

  function Started(l: Limits, groups: seq<SequenceGroup>): seq<ScheduledGroup>
    requires l.blockSize > 0
  {
    if groups == [] then []
    else (if TooLong(l, groups[0]) then [] else [Start(groups[0])]) + Started(l, groups[1..])
  }

  function Refused(l: Limits, groups: seq<SequenceGroup>): seq<SequenceGroup>
    requires l.blockSize > 0
  {
    if groups == [] then []
    else (if TooLong(l, groups[0]) then [Refusal(groups[0])] else []) + Refused(l, groups[1..])
  }

  lemma {:induction false} PromptsGrow(l: Limits, groups: seq<SequenceGroup>, g: SequenceGroup)
    requires l.blockSize > 0
    ensures Started(l, groups + [g]) == Started(l, groups) + if TooLong(l, g) then [] else [Start(g)]
    ensures Refused(l, groups + [g]) == Refused(l, groups) + if TooLong(l, g) then [Refusal(g)] else []
  {
    if groups == [] {
      assert [g][1..] == [];
    } else {
      assert (groups + [g])[1..] == groups[1..] + [g];
      PromptsGrow(l, groups[1..], g);
    }
  }

  /** A refused request has ended, with the status that says it was ignored. */
  lemma {:induction false} RefusedEnd<B>(l: Limits, groups: seq<SequenceGroup>, tables: map<int, seq<B>>)
    requires l.blockSize > 0 && forall g | g in groups :: WaitingOk(g, tables)
    ensures forall r | r in Refused(l, groups) :: r.IsFinished() && exists s | s in r.seqs :: s.status.FinishedIgnored?
  {
    hide WaitingOk;
    if groups != [] {
      assert groups[0] in groups;
      RefusedEnd(l, groups[1..], tables);
      RefusalEnds(groups[0], tables);
      forall r | r in Refused(l, groups) ensures r.IsFinished() && exists s | s in r.seqs :: s.status.FinishedIgnored? {
        assert r == Refusal(groups[0]) || r in Refused(l, groups[1..]);
      }
    }
  }

  lemma RefusalEnds<B>(g: SequenceGroup, tables: map<int, seq<B>>)
    requires WaitingOk(g, tables)
    ensures Refusal(g).IsFinished() && exists s | s in Refusal(g).seqs :: s.status.FinishedIgnored?
  {
    var r := Refusal(g);
    forall s | s in r.seqs ensures s.IsFinished() {
      var i :| 0 <= i < |r.seqs| && r.seqs[i] == s;
      assert g.seqs[i] in g.seqs;
    }
    OnePrompt(g, tables);
    var only := g.WithStatus(Waiting)[0];
    SelectIsSubsequence(g.seqs, Waiting);
    assert only in Select(g.seqs, Waiting);
    var i :| 0 <= i < |g.seqs| && g.seqs[i] == only;
    assert r.seqs[i] in r.seqs && r.seqs[i].status.FinishedIgnored?;
  }

  /** The first `taken` waiting groups have been started or refused, `left` are left. */
  ghost predicate TakenSoFar(l: Limits, queue: seq<SequenceGroup>, taken: nat, left: seq<SequenceGroup>,
                             scheduled: seq<ScheduledGroup>, ignored: seq<SequenceGroup>)
    requires l.blockSize > 0
  {
    && taken <= |queue| && left == queue[taken..]
    && scheduled == Started(l, queue[..taken]) && ignored == Refused(l, queue[..taken])
  }

  lemma TakenNext(l: Limits, queue: seq<SequenceGroup>, taken: nat, left: seq<SequenceGroup>,
                  scheduled: seq<ScheduledGroup>, ignored: seq<SequenceGroup>)
    requires l.blockSize > 0 && TakenSoFar(l, queue, taken, left, scheduled, ignored) && left != []
    ensures taken < |queue| && left[0] == queue[taken]
    ensures TooLong(l, left[0]) ==> TakenSoFar(l, queue, taken + 1, left[1..], scheduled, ignored + [Refusal(left[0])])
    ensures !TooLong(l, left[0]) ==> TakenSoFar(l, queue, taken + 1, left[1..], scheduled + [Start(left[0])], ignored)
    ensures SumMax(Groups(scheduled + [Start(left[0])])) == SumMax(Groups(scheduled)) + left[0].MaxNumRunningSeqs()
  {
    var g := queue[taken];
    hide TooLong, Restated, SequenceGroup.MaxNumRunningSeqs;
    assert queue[..taken + 1] == queue[..taken] + [g];
    PromptsGrow(l, queue[..taken], g);
    GroupsGrow(scheduled, Start(g));
    SumsConcat(Groups(scheduled), [Start(g).group]);
    SumsOne(Start(g).group);
    RestatedMax(g, Waiting, Running);
  }

  /** What a prompt needs to start: free blocks, and room for its tokens and its sequences in the budget. */
  datatype Space = Space(blocks: int, tokens: int, seqs: int)

  ghost predicate Fits(l: Limits, g: SequenceGroup, space: Space)
    requires l.blockSize > 0
  {
    && NumBlocks(PromptLength(g), l.blockSize) + l.watermarkBlocks <= space.blocks
    && PromptLength(g) <= space.tokens && g.MaxNumRunningSeqs() <= space.seqs
  }

  /** The loop over the prompts ends before prompt `taken`: with the queue, by the delay, or at a prompt that memory could
      hold but for which there is not enough left. */
  ghost predicate Halts(l: Limits, queue: seq<SequenceGroup>, delay: nat -> bool, taken: nat, space: Space)
    requires l.blockSize > 0
  {
    taken < |queue| && delay(taken) ==> !TooLong(l, queue[taken]) && !Fits(l, queue[taken], space)
  }

  lemma HaltsIf(l: Limits, queue: seq<SequenceGroup>, delay: nat -> bool, taken: nat, space: Space)
    requires l.blockSize > 0
    requires taken < |queue| && delay(taken) ==> !TooLong(l, queue[taken]) && !Fits(l, queue[taken], space)
    ensures Halts(l, queue, delay, taken, space)
  {
  }

  /** The first `k` prompts are refused for good, before the delay stops the loop. */
  ghost predicate NoneYet(l: Limits, queue: seq<SequenceGroup>, delay: nat -> bool, k: nat)
    requires l.blockSize > 0
  {
    k <= |queue| && forall i: nat | i < k :: delay(i) && TooLong(l, queue[i])
  }

  /** The prompt after these starts. */
  ghost predicate StartsAt(l: Limits, queue: seq<SequenceGroup>, delay: nat -> bool, space: Space, k: nat)
    requires l.blockSize > 0
  {
    NoneYet(l, queue, delay, k) && k < |queue| && delay(k) && !TooLong(l, queue[k]) && Fits(l, queue[k], space)
  }

  ghost predicate SomeStarts(l: Limits, queue: seq<SequenceGroup>, delay: nat -> bool, space: Space)
    requires l.blockSize > 0
  {
    exists k :: StartsAt(l, queue, delay, space, k)
  }

  lemma FirstStarts(l: Limits, queue: seq<SequenceGroup>, delay: nat -> bool, space: Space, k: nat)
    requires l.blockSize > 0 && NoneYet(l, queue, delay, k) && k < |queue| && delay(k)
    ensures TooLong(l, queue[k]) ==> NoneYet(l, queue, delay, k + 1)
    ensures !TooLong(l, queue[k]) && Fits(l, queue[k], space) ==> SomeStarts(l, queue, delay, space)
  {
    if !TooLong(l, queue[k]) && Fits(l, queue[k], space) {
      assert StartsAt(l, queue, delay, space, k);
    }
  }

  lemma NoneStarts(l: Limits, queue: seq<SequenceGroup>, delay: nat -> bool, space: Space, k: nat)
    requires l.blockSize > 0 && NoneYet(l, queue, delay, k)
    requires k == |queue| || !delay(k) || (!TooLong(l, queue[k]) && !Fits(l, queue[k], space))
    ensures !SomeStarts(l, queue, delay, space)
  {
    forall m: nat ensures !StartsAt(l, queue, delay, space, m) {
    }
  }

  lemma TakenAll(l: Limits, queue: seq<SequenceGroup>, taken: nat, left: seq<SequenceGroup>,
                 scheduled: seq<ScheduledGroup>, ignored: seq<SequenceGroup>)
    requires l.blockSize > 0 && TakenSoFar(l, queue, taken, left, scheduled, ignored)
    ensures left == [] ==> taken == |queue|
  {
  }

  // ---- what one call does to the queues -----------------------------------------------------------------------

  datatype Queues = Queues(waiting: seq<SequenceGroup>, running: seq<SequenceGroup>, swapped: seq<SequenceGroup>)

  /** A step that starts prompts: the first `taken` waiting groups leave, in order, the rest stay; nothing else runs. */
  ghost predicate AdmitStep(l: Limits, q: Queues, q': Queues, taken: nat)
    requires l.blockSize > 0
  {
    && q.swapped == [] && taken <= |q.waiting| && Started(l, q.waiting[..taken]) != []
    && q' == Queues(q.waiting[taken..], q.running + Groups(Started(l, q.waiting[..taken])), [])
  }

  /** Decoding from the queues `q`: of the running groups in order of arrival, `kept` run and the last ones are
      preempted; the first `back` swapped groups return, if nothing was preempted. */
  ghost predicate Worked(q: Queues, q': Queues, now: real, now': real,
                         kept: seq<SequenceGroup>, victims: seq<SequenceGroup>, back: nat)
  {
    && SortByPriority(now, q.running) == kept + victims
    && var swapped := if victims == [] then SortByPriority(now', q.swapped) else q.swapped;
    && back <= |swapped| && (victims != [] ==> back == 0)
    && q' == Queues(Recomputed(victims) + q.waiting, kept + Returned(swapped[..back]),
                    swapped[back..] + Reversed(SwappedAway(victims)))
  }

  /** A step that decodes, after the first `taken` waiting groups were all refused. */
  ghost predicate DecodeStep(l: Limits, q: Queues, q': Queues, taken: nat, now: real, now': real,
                             kept: seq<SequenceGroup>, victims: seq<SequenceGroup>, back: nat)
    requires l.blockSize > 0
  {
    && taken <= |q.waiting| && Started(l, q.waiting[..taken]) == [] && (q.swapped != [] ==> taken == 0)
    && Worked(q.(waiting := q.waiting[taken..]), q', now, now', kept, victims, back)
  }

  /** `h` is `g` at a later time. */
  ghost predicate Continues(g: SequenceGroup, h: SequenceGroup) {
    h.requestId == g.requestId && h.arrivalTime == g.arrivalTime && (Single(g) && !h.IsFinished() ==> Single(h))
  }

  /** `later` is what is left of `groups`, in the same order. */
  ghost predicate Thinned(groups: seq<SequenceGroup>, later: seq<SequenceGroup>) {
    later == []
    || (groups != [] && (Thinned(groups[1..], later) || (Continues(groups[0], later[0]) && Thinned(groups[1..], later[1..]))))
  }

  /** A step that only removes groups or lets them go on: an abort, or the processing of the model's outputs. */
  ghost predicate ThinStep(q: Queues, q': Queues) {
    Thinned(q.waiting, q'.waiting) && Thinned(q.running, q'.running) && Thinned(q.swapped, q'.swapped)
    && forall g | g in q'.waiting + q'.running :: !g.IsFinished()
  }

  /** `add_seq_group`: arrivals come in order. */
  ghost predicate ArriveStep(q: Queues, q': Queues, g: SequenceGroup) {
    && q' == q.(waiting := q.waiting + [g]) && Single(g)
    && forall h | h in q.running + q.waiting :: h.arrivalTime <= g.arrivalTime
  }

  /** What `add_seq_group`, `abort_seq_group`, `schedule` and the processing of its outputs do to the queues. */
  ghost predicate Follows(l: Limits, q: Queues, q': Queues)
    requires l.blockSize > 0
  {
    || (exists g :: ArriveStep(q, q', g))
    || ThinStep(q, q')
    || (exists taken :: AdmitStep(l, q, q', taken))
    || (exists taken, now, now', kept, victims, back :: DecodeStep(l, q, q', taken, now, now', kept, victims, back))
  }

  // ---- first come, first served -------------------------------------------------------------------------------

  /** A live request for a single sample. */
  ghost predicate Single(g: SequenceGroup) {
    g.bestOf == 1 && !g.useBeamSearch && |g.seqs| == 1 && !g.seqs[0].IsFinished()
  }

  ghost predicate AllSingle(groups: seq<SequenceGroup>) {
    forall g | g in groups :: Single(g)
  }

  lemma SingleRunsOne(g: SequenceGroup)
    requires Single(g)
    ensures g.MaxNumRunningSeqs() == 1
  {
    assert g.seqs[1..] == [];
    assert Unfinished(g.seqs) == [g.seqs[0]];
  }

  /** Nothing is swapped, and the running groups followed by the waiting ones are in order of arrival. */
  ghost predicate FirstComeFirstServed(q: Queues) {
    && q.swapped == [] && ByArrival(q.running + q.waiting)
    && AllSingle(q.running + q.waiting)
  }

  lemma ByArrivalConcat(a: seq<SequenceGroup>, b: seq<SequenceGroup>)
    ensures ByArrival(a + b) <==>
            ByArrival(a) && ByArrival(b) && forall g, h | g in a && h in b :: g.arrivalTime <= h.arrivalTime
  {
    var ab := a + b;
    if ByArrival(ab) {
      forall i, j | 0 <= i < j < |a| ensures a[i].arrivalTime <= a[j].arrivalTime {
        assert ab[i].arrivalTime <= ab[j].arrivalTime;
      }
      forall i, j | 0 <= i < j < |b| ensures b[i].arrivalTime <= b[j].arrivalTime {
        assert ab[|a| + i].arrivalTime <= ab[|a| + j].arrivalTime;
      }
      forall g, h | g in a && h in b ensures g.arrivalTime <= h.arrivalTime {
        var i :| 0 <= i < |a| && a[i] == g;
        var j :| 0 <= j < |b| && b[j] == h;
        assert ab[i].arrivalTime <= ab[|a| + j].arrivalTime;
      }
    }
  }

  /** A later time's groups are in order when the earlier ones were, and none arrived outside their span. */
  lemma {:induction false} ThinnedArrivals(groups: seq<SequenceGroup>, later: seq<SequenceGroup>)
    requires Thinned(groups, later)
    ensures forall h | h in later :: exists g | g in groups :: Continues(g, h)
    ensures ByArrival(groups) ==> ByArrival(later)
  {
    if later != [] {
      var rest := groups[1..];
      assert groups == [groups[0]] + rest;
      ByArrivalConcat([groups[0]], rest);
      if Thinned(rest, later) {
        ThinnedArrivals(rest, later);
      } else {
        ThinnedArrivals(rest, later[1..]);
        assert later == [later[0]] + later[1..];
        ByArrivalConcat([later[0]], later[1..]);
        forall h | h in later ensures exists g | g in groups :: Continues(g, h) {
          if h in later[1..] {
            var g :| g in rest && Continues(g, h);
            assert g in groups;
          } else {
            assert groups[0] in groups && Continues(groups[0], h);
          }
        }
      }
    }
  }

  lemma {:induction false} ThinnedConcat(a: seq<SequenceGroup>, a': seq<SequenceGroup>, b: seq<SequenceGroup>, b': seq<SequenceGroup>)
    requires Thinned(a, a') && Thinned(b, b')
    ensures Thinned(a + b, a' + b')
  {
    if a == [] {
      assert a' == [] && a + b == b && a' + b' == b';
    } else {
      assert (a + b)[1..] == a[1..] + b;
      if a' == [] {
        ThinnedConcat(a[1..], [], b, b');
        assert [] + b' == b';
      } else if Thinned(a[1..], a') {
        ThinnedConcat(a[1..], a', b, b');
      } else {
        ThinnedConcat(a[1..], a'[1..], b, b');
        assert (a' + b')[1..] == a'[1..] + b';
      }
    }
  }

  lemma {:induction false} ThinnedSame(groups: seq<SequenceGroup>)
    ensures Thinned(groups, groups)
  {
    if groups != [] {
      ThinnedSame(groups[1..]);
    }
  }

  lemma {:induction false} StartedThins(l: Limits, groups: seq<SequenceGroup>)
    requires l.blockSize > 0
    ensures Thinned(groups, Groups(Started(l, groups)))
  {
    if groups != [] {
      var rest := Started(l, groups[1..]);
      StartedThins(l, groups[1..]);
      if !TooLong(l, groups[0]) {
        assert Started(l, groups) == [Start(groups[0])] + rest;
        assert Groups(Started(l, groups))[1..] == Groups(rest);
        StartSingle(groups[0]);
      } else {
        assert Started(l, groups) == rest;
      }
    }
  }

  lemma StartSingle(g: SequenceGroup)
    ensures Continues(g, Start(g).group)
  {
  }

  /** With single samples, every victim goes back to the waiting queue. */
  lemma {:induction false} SinglesRecompute(victims: seq<SequenceGroup>)
    requires AllSingle(victims)
    ensures SwappedAway(victims) == [] && |Recomputed(victims)| == |victims| && Thinned(victims, Recomputed(victims))
    ensures AllSingle(Recomputed(victims))
  {
    if victims != [] {
      SingleRunsOne(victims[0]);
      SinglesRecompute(victims[1..]);
      assert Recomputed(victims)[1..] == Recomputed(victims[1..]);
    }
  }

  lemma ThinKeepsOrder(groups: seq<SequenceGroup>, later: seq<SequenceGroup>)
    requires Thinned(groups, later) && ByArrival(groups) && AllSingle(groups)
    requires forall g | g in later :: !g.IsFinished()
    ensures ByArrival(later) && AllSingle(later)
  {
    ThinnedArrivals(groups, later);
    forall h | h in later ensures Single(h) {
      var g :| g in groups && Continues(g, h);
    }
  }

  lemma {:induction false} StartedLive(l: Limits, groups: seq<SequenceGroup>)
    requires l.blockSize > 0 && AllSingle(groups)
    ensures AllSingle(Groups(Started(l, groups)))
  {
    if groups != [] {
      assert forall g | g in groups[1..] :: g in groups;
      StartedLive(l, groups[1..]);
      var rest := Started(l, groups[1..]);
      assert Single(groups[0]) && Single(Start(groups[0]).group);
      if !TooLong(l, groups[0]) {
        assert Started(l, groups) == [Start(groups[0])] + rest;
        assert Groups(Started(l, groups)) == [Start(groups[0]).group] + Groups(rest);
      } else {
        assert Started(l, groups) == rest;
      }
    }
  }

  lemma SingleLives(groups: seq<SequenceGroup>)
    requires AllSingle(groups)
    ensures forall g | g in groups :: !g.IsFinished()
  {
    forall g | g in groups ensures !g.IsFinished() {
      assert g.seqs[0] in g.seqs;
    }
  }

  lemma AdmitKeepsOrder(l: Limits, q: Queues, q': Queues, taken: nat)
    requires l.blockSize > 0 && FirstComeFirstServed(q) && AdmitStep(l, q, q', taken)
    ensures FirstComeFirstServed(q')
  {
    var first, rest := q.waiting[..taken], q.waiting[taken..];
    var started := Groups(Started(l, first));
    StartedThins(l, first);
    StartedLive(l, first);
    ThinnedSame(q.running);
    ThinnedSame(rest);
    ThinnedConcat(first, started, rest, rest);
    ThinnedConcat(q.running, q.running, first + rest, started + rest);
    assert q.running + (first + rest) == q.running + q.waiting;
    assert q.running + (started + rest) == q'.running + q'.waiting;
    SingleLives(q'.running + q'.waiting);
    ThinKeepsOrder(q.running + q.waiting, q'.running + q'.waiting);
  }

  /** Of a running queue in order, a suffix is preempted and put back in front of the waiting groups. */
  lemma PreemptionThins(kept: seq<SequenceGroup>, victims: seq<SequenceGroup>, waiting: seq<SequenceGroup>, rest: seq<SequenceGroup>)
    requires AllSingle(victims) && Thinned(waiting, rest)
    ensures Thinned((kept + victims) + waiting, kept + (Recomputed(victims) + rest))
  {
    hide Thinned, Recomputed;
    SinglesRecompute(victims);
    ThinnedSame(kept);
    ThinnedConcat(victims, Recomputed(victims), waiting, rest);
    ThinnedConcat(kept, kept, victims + waiting, Recomputed(victims) + rest);
    assert (kept + victims) + waiting == kept + (victims + waiting);
  }

  lemma {:induction false} TailThins(groups: seq<SequenceGroup>, taken: nat)
    requires taken <= |groups|
    ensures Thinned(groups, groups[taken..])
  {
    if taken == 0 {
      ThinnedSame(groups);
    } else {
      TailThins(groups[1..], taken - 1);
      assert groups[taken..] == groups[1..][taken - 1..];
    }
  }

  lemma DecodeKeepsOrder(l: Limits, q: Queues, q': Queues, taken: nat, now: real, now': real,
                         kept: seq<SequenceGroup>, victims: seq<SequenceGroup>, back: nat)
    requires l.blockSize > 0 && FirstComeFirstServed(q) && DecodeStep(l, q, q', taken, now, now', kept, victims, back)
    ensures FirstComeFirstServed(q')
    ensures q.running == kept + victims && q'.running == kept
  {
    hide Thinned, Recomputed, ByArrival, Single, Started, Groups;
    var rest := q.waiting[taken..];
    ByArrivalConcat(q.running, q.waiting);
    SortKeepsOrder(now, q.running);
    assert AllSingle(victims) && AllSingle(kept) && AllSingle(rest) by {
      assert forall g | g in kept + victims || g in rest :: g in q.running + q.waiting;
    }
    SinglesRecompute(victims);
    TailThins(q.waiting, taken);
    PreemptionThins(kept, victims, q.waiting, rest);
    assert Returned([]) == [] && Reversed<SequenceGroup>([]) == [];
    assert q'.running + q'.waiting == kept + (Recomputed(victims) + rest);
    assert AllSingle(q'.running + q'.waiting);
    SingleLives(q'.running + q'.waiting);
    ThinKeepsOrder(q.running + q.waiting, q'.running + q'.waiting);
  }

  lemma ThinKeepsFirstCome(q: Queues, q': Queues)
    requires FirstComeFirstServed(q) && ThinStep(q, q')
    ensures FirstComeFirstServed(q')
  {
    ThinnedConcat(q.running, q'.running, q.waiting, q'.waiting);
    ThinKeepsOrder(q.running + q.waiting, q'.running + q'.waiting);
  }

  lemma ArriveKeepsOrder(q: Queues, q': Queues, g: SequenceGroup)
    requires FirstComeFirstServed(q) && ArriveStep(q, q', g)
    ensures FirstComeFirstServed(q')
  {
    ByArrivalConcat(q.running + q.waiting, [g]);
    assert q.running + q.waiting + [g] == q'.running + q'.waiting;
  }

  lemma FollowsKeepsOrder(l: Limits, q: Queues, q': Queues)
    requires l.blockSize > 0 && FirstComeFirstServed(q) && Follows(l, q, q')
    ensures FirstComeFirstServed(q')
  {
    hide FirstComeFirstServed, AdmitStep, DecodeStep, ArriveStep;
    if g :| ArriveStep(q, q', g) {
      ArriveKeepsOrder(q, q', g);
    } else if ThinStep(q, q') {
      ThinKeepsFirstCome(q, q');
    } else if taken :| AdmitStep(l, q, q', taken) {
      AdmitKeepsOrder(l, q, q', taken);
    } else {
      var taken, now, now', kept, victims, back :| DecodeStep(l, q, q', taken, now, now', kept, victims, back);
      DecodeKeepsOrder(l, q, q', taken, now, now', kept, victims, back);
    }
  }

  /** Requests for single samples are never swapped, so the two errors of a step do not concern them. */
  lemma SinglesNeverSwap(q: Queues)
    requires FirstComeFirstServed(q)
    ensures forall g | g in q.running :: g.MaxNumRunningSeqs() == 1
    ensures q.swapped == []
  {
    forall g | g in q.running ensures g.MaxNumRunningSeqs() == 1 {
      assert g in q.running + q.waiting;
      SingleRunsOne(g);
    }
  }

  /** Over whole runs, whatever arrives, is aborted, scheduled, preempted or finished: no running group arrived after
      a waiting one, and neither queue is out of order. */
  lemma {:induction false} RunsAreFirstComeFirstServed(l: Limits, states: seq<Queues>, k: nat)
    requires l.blockSize > 0 && k < |states| && FirstComeFirstServed(states[0])
    requires forall i | 0 <= i < |states| - 1 :: Follows(l, states[i], states[i + 1])
    ensures FirstComeFirstServed(states[k])
  {
    if k > 0 {
      RunsAreFirstComeFirstServed(l, states, k - 1);
      assert states[k - 1 + 1] == states[k];
      FollowsKeepsOrder(l, states[k - 1], states[k]);
    }
  }

  lemma {:induction false} GroupsConcat(a: seq<ScheduledGroup>, b: seq<ScheduledGroup>)
    ensures Groups(a + b) == Groups(a) + Groups(b)
  {
  }

  // ---- aborting ------------------------------------------------------------------------------------------------

  /** The groups that are not among the requests `ids`, and those that are. */
  function Without(groups: seq<SequenceGroup>, ids: set<int>): seq<SequenceGroup> {
    if groups == [] then []
    else (if groups[0].requestId in ids then [] else [groups[0]]) + Without(groups[1..], ids)
  }

  function Among(groups: seq<SequenceGroup>, ids: set<int>): seq<SequenceGroup> {
    if groups == [] then []
    else (if groups[0].requestId in ids then [groups[0]] else []) + Among(groups[1..], ids)
  }

  /** `deque.remove`. */
  function RemoveFirst(groups: seq<SequenceGroup>, g: SequenceGroup): seq<SequenceGroup> {
    if groups == [] then [] else if groups[0] == g then groups[1..] else [groups[0]] + RemoveFirst(groups[1..], g)
  }

  ghost predicate DistinctRequests(groups: seq<SequenceGroup>) {
    groups == [] || (DistinctRequests(groups[1..]) && forall h | h in groups[1..] :: h.requestId != groups[0].requestId)
  }

  lemma {:induction false} UniqueDistinct(rest: multiset<Entry>, queue: seq<SequenceGroup>, place: Place)
    requires Unique(rest + Tagged(queue, place))
    ensures DistinctRequests(queue)
    decreases queue
  {
    if queue != [] {
      var rest' := rest + multiset{Entry(queue[0], place)};
      assert rest' + Tagged(queue[1..], place) == rest + Tagged(queue, place);
      UniqueDistinct(rest', queue[1..], place);
      HeadIsOther(rest, queue, place, []);
      forall h | h in queue[1..] ensures h.requestId != queue[0].requestId {
        assert h.requestId in RequestIds(queue[1..]);
      }
    }
  }

  lemma {:induction false} AmongIs(groups: seq<SequenceGroup>, ids: set<int>)
    ensures forall g :: g in Among(groups, ids) <==> g in groups && g.requestId in ids
    ensures forall g :: g in Without(groups, ids) <==> g in groups && g.requestId !in ids
  {
    if groups != [] {
      AmongIs(groups[1..], ids);
      assert groups == [groups[0]] + groups[1..];
    }
  }

  /** Removing a group by value is removing its request. */
  lemma {:induction false} RemoveOne(groups: seq<SequenceGroup>, ids: set<int>, g: SequenceGroup)
    requires DistinctRequests(groups) && g in groups && g.requestId !in ids
    ensures RemoveFirst(Without(groups, ids), g) == Without(groups, ids + {g.requestId})
  {
    var rest, ids' := groups[1..], ids + {g.requestId};
    if groups[0] == g {
      assert Without(groups, ids) == [g] + Without(rest, ids);
      NoneRemoved(rest, ids, g.requestId);
      assert Without(groups, ids') == [] + Without(rest, ids');
    } else {
      assert g in rest && groups[0].requestId != g.requestId;
      RemoveOne(rest, ids, g);
      var first := if groups[0].requestId in ids then [] else [groups[0]];
      assert Without(groups, ids) == first + Without(rest, ids);
      assert Without(groups, ids') == first + Without(rest, ids');
      if first == [] {
        assert first + Without(rest, ids) == Without(rest, ids) && first + Without(rest, ids') == Without(rest, ids');
      } else {
        assert Without(groups, ids)[1..] == Without(rest, ids);
      }
    }
  }

  lemma OneLess(f: Entry, rest: multiset<Entry>, e: Entry)
    requires e in rest
    ensures multiset{f} + (rest - multiset{e}) == multiset{f} + rest - multiset{e} && e in multiset{f} + rest
  {
  }

  lemma {:induction false} RemoveTagged(groups: seq<SequenceGroup>, g: SequenceGroup, place: Place)
    requires g in groups
    ensures Tagged(RemoveFirst(groups, g), place) == Tagged(groups, place) - multiset{Entry(g, place)}
    ensures Entry(g, place) in Tagged(groups, place)
  {
    var f, rest := Entry(groups[0], place), Tagged(groups[1..], place);
    assert Tagged(groups, place) == multiset{f} + rest;
    if groups[0] != g {
      RemoveTagged(groups[1..], g, place);
      var removed := RemoveFirst(groups, g);
      assert removed[0] == groups[0] && removed[1..] == RemoveFirst(groups[1..], g);
      assert Tagged(removed, place) == multiset{f} + (rest - multiset{Entry(g, place)});
      OneLess(f, rest, Entry(g, place));
    } else {
      assert RemoveFirst(groups, g) == groups[1..];
    }
  }

  lemma {:induction false} NoneRemoved(groups: seq<SequenceGroup>, ids: set<int>, id: int)
    requires forall h | h in groups :: h.requestId != id
    ensures Without(groups, ids + {id}) == Without(groups, ids)
  {
    if groups != [] {
      assert groups[0] in groups;
      NoneRemoved(groups[1..], ids, id);
    }
  }

  lemma {:induction false} WithoutNothing(groups: seq<SequenceGroup>)
    ensures Without(groups, {}) == groups && Among(groups, {}) == []
  {
    if groups != [] {
      WithoutNothing(groups[1..]);
    }
  }

  /** Only requests that are in the queue matter. */
  lemma {:induction false} WithoutChosen(groups: seq<SequenceGroup>, ids: set<int>, all: seq<SequenceGroup>)
    requires forall g | g in groups :: g in all
    ensures Without(groups, RequestIds(Among(all, ids))) == Without(groups, ids)
  {
    if groups != [] {
      AmongIs(all, ids);
      assert groups[0] in groups;
      WithoutChosen(groups[1..], ids, all);
      if groups[0].requestId in ids {
        assert groups[0] in Among(all, ids);
      }
    }
  }

  /** Once no requested group is left, the rest of the queue holds none. */
  lemma {:induction false} AmongGrows(groups: seq<SequenceGroup>, ids: set<int>, g: SequenceGroup)
    ensures Among(groups + [g], ids) == Among(groups, ids) + if g.requestId in ids then [g] else []
  {
    if groups == [] {
      assert [g][1..] == [];
    } else {
      var all := groups + [g];
      assert all[0] == groups[0] && all[1..] == groups[1..] + [g];
      AmongGrows(groups[1..], ids, g);
      var first := if groups[0].requestId in ids then [groups[0]] else [];
      assert Among(all, ids) == first + Among(all[1..], ids) && Among(groups, ids) == first + Among(groups[1..], ids);
    }
  }

  lemma {:induction false} AmongRest(groups: seq<SequenceGroup>, ids: set<int>, more: seq<SequenceGroup>)
    requires forall g | g in more :: g.requestId !in ids
    ensures Among(groups + more, ids) == Among(groups, ids)
    decreases more
  {
    if more == [] {
      assert groups + more == groups;
    } else {
      assert groups + more == (groups + [more[0]]) + more[1..];
      AmongRest(groups + [more[0]], ids, more[1..]);
      AmongGrows(groups, ids, more[0]);
    }
  }

  lemma {:induction false} DistinctAt(groups: seq<SequenceGroup>, i: nat, j: nat)
    requires DistinctRequests(groups) && i < j < |groups|
    ensures groups[i].requestId != groups[j].requestId
  {
    if i == 0 {
      assert groups[1..][j - 1] in groups[1..];
    } else {
      DistinctAt(groups[1..], i - 1, j - 1);
    }
  }

  /** What is left of a queue is thinned out, and no group may run more sequences than before. */
  lemma {:induction false} WithoutThins(groups: seq<SequenceGroup>, ids: set<int>)
    ensures Thinned(groups, Without(groups, ids)) && SumMax(Without(groups, ids)) <= SumMax(groups)
  {
    if groups != [] {
      var rest := Without(groups[1..], ids);
      WithoutThins(groups[1..], ids);
      if groups[0].requestId in ids {
        assert Without(groups, ids) == rest;
      } else {
        assert Without(groups, ids)[1..] == rest;
      }
    }
  }

  lemma {:induction false} AmongDistinct(groups: seq<SequenceGroup>, ids: set<int>)
    requires DistinctRequests(groups)
    ensures DistinctRequests(Among(groups, ids))
  {
    if groups != [] {
      var rest := Among(groups[1..], ids);
      AmongDistinct(groups[1..], ids);
      AmongIs(groups[1..], ids);
      if groups[0].requestId in ids {
        assert Among(groups, ids)[1..] == rest;
      } else {
        assert Among(groups, ids) == rest;
      }
    }
  }

  lemma {:induction false} WithoutSame(groups: seq<SequenceGroup>, ids: set<int>, ids': set<int>)
    requires ids' <= ids && (ids - ids') !! RequestIds(groups)
    ensures Without(groups, ids') == Without(groups, ids)
  {
    if groups != [] {
      assert groups[0] in groups && groups[0].requestId in RequestIds(groups);
      assert RequestIds(groups[1..]) <= RequestIds(groups);
      WithoutSame(groups[1..], ids, ids');
    }
  }

  lemma WithoutIds(groups: seq<SequenceGroup>, ids: set<int>)
    ensures RequestIds(Without(groups, ids)) == RequestIds(groups) - ids
  {
    AmongIs(groups, ids);
  }
}
