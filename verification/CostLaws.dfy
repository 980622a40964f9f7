/**
 What the attribution rules of the cost breakdown say of a stream, without
 naming them: which dispatch a result closes, which phase, skill or segment
 a turn is billed to, and where a skill is listed.
 */
module CostLaws {
  import opened Options
  import opened Transcript
  import opened Matching
  import opened Attribution
  import opened Registry
  import opened Cost
  import opened CostAggregator
  import Walks

  // ----- Which result closes a dispatch --------------------------------------------------------

  /** The first result that names a dispatch closes it, unless a dispatch of the same id came between. */
  lemma FirstResultCloses(events: seq<CostEvent>, i: nat, j: nat)
    requires i < j < |events| && IsDispatch(events[i]) && events[j].ToolResult? && events[j].matched == Some(GetOr(events[i].useId, ""))
    requires forall m | i < m < j ::
               !(events[m].ToolResult? && events[m].matched == events[j].matched)
               && !(IsDispatch(events[m]) && GetOr(events[m].useId, "") == GetOr(events[i].useId, ""))
    ensures ClosedBy(events, i) == Some(j)
  {
    StillNested(events, i, j);
    hide Scan;
    EndsThere(events, i, j);
    ScanSettled(events, i, j + 1, |events|);
  }

  lemma {:induction false} StillNested(events: seq<CostEvent>, i: nat, k: nat)
    requires i < k < |events| && IsDispatch(events[i])
    requires forall m | i < m < k ::
               !Closes(events[m], FrameId(events[i])) && !(IsDispatch(events[m]) && FrameId(events[m]) == FrameId(events[i]))
    ensures Scan(events, i, k) == Nested(0)
  {
    if k > i + 1 {
      StillNested(events, i, k - 1);
    }
  }

  lemma EndsThere(events: seq<CostEvent>, i: nat, j: nat)
    requires i < j < |events| && IsDispatch(events[i]) && Closes(events[j], FrameId(events[i])) && Scan(events, i, j) == Nested(0)
    ensures Scan(events, i, j + 1) == Closed(j)
  {
  }

  /** No result names the dispatch: it stays open. */
  lemma NeverNamed(events: seq<CostEvent>, i: nat)
    requires i < |events| && IsDispatch(events[i])
    requires forall m | i < m < |events| :: !(events[m].ToolResult? && events[m].matched == Some(GetOr(events[i].useId, "")))
    ensures ClosedBy(events, i).None?
  {
    StaysNested(events, i, |events|);
  }

  lemma {:induction false} StaysNested(events: seq<CostEvent>, i: nat, k: nat)
    requires i < k <= |events| && IsDispatch(events[i])
    requires forall m | i < m < |events| :: !Closes(events[m], FrameId(events[i]))
    ensures Scan(events, i, k).Nested?
  {
    if k > i + 1 {
      StaysNested(events, i, k - 1);
    }
  }

  ghost predicate InFlightAt(events: seq<CostEvent>, i: nat, k: nat)
    requires k <= |events|
  {
    i < k && IsDispatch(events[i]) && (ClosedBy(events, i).None? || ClosedBy(events, i).value >= k)
  }

  /** A dispatch is open from its event to the result that closes it. */
  lemma OpenUntilClosed(events: seq<CostEvent>, i: nat, k: nat)
    requires i < k <= |events| && IsDispatch(events[i])
    ensures i in OpenAt(events, k) <==> InFlightAt(events, i, k)
  {
    hide OpenAt, Scan;
    InFlight(events, k, i);
    if Scan(events, i, k).Closed? {
      ScanSettled(events, i, k, |events|);
      ClosedBefore(events, i, k);
    } else if ClosedBy(events, i).Some? && ClosedBy(events, i).value < k {
      ClosedAlready(events, i, k);
    }
  }

  lemma ClosedBefore(events: seq<CostEvent>, i: nat, k: nat)
    requires i < k <= |events| && IsDispatch(events[i]) && Scan(events, i, k).Closed?
    ensures Scan(events, i, k).end < k
  {
  }

  lemma {:induction false} ClosedAlready(events: seq<CostEvent>, i: nat, k: nat)
    requires i < k <= |events| && IsDispatch(events[i])
    requires Scan(events, i, |events|).Closed? && Scan(events, i, |events|).end < k
    ensures Scan(events, i, k).Closed?
  {
    NotLate(events, i, k, |events|);
  }

  /** A scan that is nested after k events ends at k or later, if at all. */
  lemma {:induction false} NotLate(events: seq<CostEvent>, i: nat, k: nat, n: nat)
    requires i < k <= n <= |events| && IsDispatch(events[i])
    ensures Scan(events, i, k).Nested? && Scan(events, i, n).Closed? ==> Scan(events, i, n).end >= k
    decreases n
  {
    if k < n {
      NotLate(events, i, k, n - 1);
    }
  }

  // ----- The phase of the orchestrator's turns ----------------------------------------------------

  /** The registry knows the skill that event j dispatches, as one of phase p. */
  predicate Registers(index: Index, e: CostEvent, p: string) {
    IsDispatch(e) && Lookup(index, SkillName(e)) == Some(p)
  }

  predicate Unregistered(index: Index, e: CostEvent) {
    IsDispatch(e) ==> Lookup(index, SkillName(e)).None?
  }

  /** The last registered skill dispatched before k is event j's, of phase p. */
  predicate LastRegistered(index: Index, events: seq<CostEvent>, j: nat, k: nat, p: string)
    requires k <= |events|
  {
    j < k && Registers(index, events[j], p) && forall m | j < m < k :: Unregistered(index, events[m])
  }

  lemma {:induction false} CursorIs(index: Index, events: seq<CostEvent>, j: nat, k: nat, p: string)
    requires k <= |events| && LastRegistered(index, events, j, k, p)
    ensures CurrentPhase(index, events, k) == Some(p)
  {
    hide Lookup, SkillName;
    if k > j + 1 {
      CursorIs(index, events, j, k - 1, p);
    }
  }

  lemma {:induction false} NoCursor(index: Index, events: seq<CostEvent>, k: nat)
    requires k <= |events| && forall m | 0 <= m < k :: Unregistered(index, events[m])
    ensures CurrentPhase(index, events, k) == None
  {
    hide Lookup, SkillName;
    if k > 0 {
      NoCursor(index, events, k - 1);
    }
  }

  /** A turn that no segment owns belongs to the phase of the last registered
      skill dispatched before it, or to the global orchestration if there is none. */
  lemma UnclaimedTurn(index: Index, events: seq<CostEvent>, k: nat)
    requires k < |events| && OwnerAt(index, events, k) != Nobody && !OwnerAt(index, events, k).ByFrame?
    ensures forall j, p | LastRegistered(index, events, j, k, p) :: OwnerAt(index, events, k) == ByPhase(p)
    ensures (forall m | 0 <= m < k :: Unregistered(index, events[m])) ==> OwnerAt(index, events, k) == ByOrchestration
  {
    OwnerIsThinking(index, events, k);
    hide OwnerAt, LastRegistered, Unregistered;
    forall j, p | LastRegistered(index, events, j, k, p) ensures OwnerAt(index, events, k) == ByPhase(p) {
      CursorIs(index, events, j, k, p);
    }
    if forall m | 0 <= m < k :: Unregistered(index, events[m]) {
      NoCursor(index, events, k);
    }
  }

  lemma OwnerIsThinking(index: Index, events: seq<CostEvent>, k: nat)
    requires k < |events| && OwnerAt(index, events, k) != Nobody && !OwnerAt(index, events, k).ByFrame?
    ensures OwnerAt(index, events, k) ==
            match CurrentPhase(index, events, k) { case Some(p) => ByPhase(p) case None => ByOrchestration }
  {
    hide CurrentPhase, SidechainFrame, OpenAt, DispatchUuids, NextClaim;
  }

  /** A registered skill is listed under its own phase; another one under the
      phase of the last registered skill dispatched before it ended. */
  lemma ListedUnderPhase(index: Index, events: seq<CostEvent>, i: nat)
    requires i < |events| && IsDispatch(events[i])
    ensures var input, name := events[i].toolInput, KeyOf(index, events, i).1;
            name == if Truthy(input.skill) then input.skill.value else if Truthy(input.subagentType) then input.subagentType.value else "(unknown)"
    ensures forall p | Registers(index, events[i], p) :: KeyOf(index, events, i).0 == p
    ensures var end := GetOr(ClosedBy(events, i), |events|);
            Unregistered(index, events[i]) ==>
              (forall j, p | LastRegistered(index, events, j, end, p) :: KeyOf(index, events, i).0 == p)
              && ((forall m | 0 <= m < end :: Unregistered(index, events[m])) ==> KeyOf(index, events, i).0 == "_other")
  {
    hide ClosedBy, Lookup, LastRegistered, Unregistered;
    var end := GetOr(ClosedBy(events, i), |events|);
    UnregisteredIs(index, events[i]);
    forall j, p | LastRegistered(index, events, j, end, p) ensures CurrentPhase(index, events, end) == Some(p) {
      CursorIs(index, events, j, end, p);
    }
    if forall m | 0 <= m < end :: Unregistered(index, events[m]) {
      NoCursor(index, events, end);
    }
    hide CurrentPhase;
  }

  lemma UnregisteredIs(index: Index, e: CostEvent)
    requires IsDispatch(e)
    ensures Unregistered(index, e) <==> Lookup(index, SkillName(e)).None?
  {
  }

  // ----- The segment that owns a turn ---------------------------------------------------------------

  /** A main-line turn whose message dispatches nothing belongs to the newest segment in flight. */
  lemma NewestSegmentOwns(index: Index, events: seq<CostEvent>, t: nat, i: nat)
    requires t < |events| && events[t].AssistantTurn? && !events[t].sidechain
    requires forall j | 0 <= j < |events| && IsDispatch(events[j]) :: !SameUuid(events[t], events[j])
    requires InFlightAt(events, i, t) && forall m | i < m < t :: !InFlightAt(events, m, t)
    ensures OwnerAt(index, events, t) == ByFrame(i)
  {
    NotDeferred(events, t);
    NewestOpen(events, t, i);
    hide OpenAt, ClosedBy, DispatchUuids, CurrentPhase;
  }

  lemma NewestOpen(events: seq<CostEvent>, t: nat, i: nat)
    requires t < |events| && InFlightAt(events, i, t) && forall m | i < m < t :: !InFlightAt(events, m, t)
    ensures OpenAt(events, t) != [] && OpenAt(events, t)[|OpenAt(events, t)| - 1] == i
  {
    hide ClosedBy, OpenAt;
    var open := OpenAt(events, t);
    OpenUntilClosed(events, i, t);
    var last := open[|open| - 1];
    assert FramesOf(events, open) && last in open && last < t;
    OpenUntilClosed(events, last, t);
    var q :| 0 <= q < |open| && open[q] == i;
  }

  lemma NotDeferred(events: seq<CostEvent>, t: nat)
    requires t < |events| && forall j | 0 <= j < |events| && IsDispatch(events[j]) :: !SameUuid(events[t], events[j])
    ensures !Deferred(events)[t]
  {
    if Truthy(events[t].uuid) {
      forall j | 0 <= j < |events| && IsDispatch(events[j]) ensures !HasUuid(events[j], events[t].uuid.value) {
        assert !SameUuid(events[t], events[j]);
      }
    }
  }

  /** With nothing in flight, no segment owns it. */
  lemma NoSegmentOwns(index: Index, events: seq<CostEvent>, t: nat)
    requires t < |events| && events[t].AssistantTurn? && !events[t].sidechain
    requires forall j | 0 <= j < |events| && IsDispatch(events[j]) :: !SameUuid(events[t], events[j])
    requires forall m | 0 <= m < t :: !InFlightAt(events, m, t)
    ensures OwnerAt(index, events, t) != Nobody && !OwnerAt(index, events, t).ByFrame?
  {
    NotDeferred(events, t);
    NoneOpen(events, t);
    hide OpenAt, ClosedBy, DispatchUuids, CurrentPhase;
  }

  lemma NoneOpen(events: seq<CostEvent>, t: nat)
    requires t <= |events| && forall m | 0 <= m < t :: !InFlightAt(events, m, t)
    ensures OpenAt(events, t) == []
  {
    hide ClosedBy, OpenAt;
    var open := OpenAt(events, t);
    if open != [] {
      assert FramesOf(events, open) && open[0] in open && open[0] < t;
      OpenUntilClosed(events, open[0], t);
    }
  }

  /** A main-line turn belongs to the dispatch that its own message goes on to make. */
  lemma DispatchTurn(index: Index, events: seq<CostEvent>, t: nat, j: nat)
    requires t < j < |events| && events[t].AssistantTurn? && !events[t].sidechain
    requires IsDispatch(events[j]) && SameUuid(events[t], events[j])
    requires forall m | t < m < j && SameUuid(events[t], events[m]) :: !IsDispatch(events[m]) && !events[m].AssistantTurn?
    ensures OwnerAt(index, events, t) == ByFrame(j)
  {
    var u := events[t].uuid.value;
    assert HasUuid(events[j], u) && Deferred(events)[t];
    var next := NextClaim(events, Deferred(events), u, t + 1);
    assert Claims(events, Deferred(events), u, j);
    forall m | t < m < j ensures !Claims(events, Deferred(events), u, m) {
      assert HasUuid(events[m], u) ==> SameUuid(events[t], events[m]);
    }
    hide OpenAt, DispatchUuids, CurrentPhase;
  }

  lemma NoHolder(events: seq<CostEvent>, open: seq<nat>, u: string)
    requires FramesOf(events, open) && forall p | 0 <= p < |open| :: events[open[p]].uuid != Some(u)
    ensures Holder(events, open, u).None?
  {
  }

  /** A sidechain turn belongs to the open dispatch of its parent message, or of
      the nearest ancestor message that has one; to no segment if none has. */
  lemma SidechainTurn(index: Index, events: seq<CostEvent>, t: nat, n: nat)
    requires t < |events| && events[t].AssistantTurn? && events[t].sidechain
    requires var parent := GetOr(events[t].parent, "");
             forall m | 0 <= m <= n :: Walks.Iter(Parents(events, |events|), parent, m) != ""
    requires var parent := GetOr(events[t].parent, "");
             forall m, i | 0 <= m < n && i in OpenAt(events, t) :: events[i].uuid != Some(Walks.Iter(Parents(events, |events|), parent, m))
    requires exists i :: i in OpenAt(events, t) && events[i].uuid == Some(Walks.Iter(Parents(events, |events|), GetOr(events[t].parent, ""), n))
    ensures var owner := OwnerAt(index, events, t);
            owner.ByFrame? && owner.at in OpenAt(events, t)
            && events[owner.at].uuid == Some(Walks.Iter(Parents(events, |events|), GetOr(events[t].parent, ""), n))
  {
    hide OpenAt, Parents, Walks.Iter, CurrentPhase, Holder;
    var g, parent, open := Parents(events, |events|), GetOr(events[t].parent, ""), OpenAt(events, t);
    forall m | 0 <= m < n ensures Holder(events, open, Walks.Iter(g, parent, m)).None? {
      NoHolder(events, open, Walks.Iter(g, parent, m));
    }
    assert Holder(events, open, Walks.Iter(g, parent, n)).Some?;
    assert NearestAt(events, t, n);
    NearestUnique(events, t, n);
    hide NearestAt, SidechainFrame;
  }

  /** The last event under a uuid says what its parent message is. */
  lemma ParentMessage(events: seq<CostEvent>, k: nat, j: nat)
    requires j < k <= |events| && Truthy(events[j].uuid)
    requires forall m | j < m < k :: !SameUuid(events[j], events[m])
    ensures events[j].uuid.value in Parents(events, k) && Parents(events, k)[events[j].uuid.value] == GetOr(events[j].parent, "")
  {
    if k > j + 1 {
      ParentMessage(events, k - 1, j);
    }
  }

  // ----- How long a segment lasts -------------------------------------------------------------------

  ghost predicate TimedBy(index: Index, events: seq<CostEvent>, t: nat, o: Owner)
    requires t < |events|
  {
    events[t].AssistantTurn? && events[t].ts.Some? && OwnerAt(index, events, t) == o
  }

  /** Turn t is the last timed one of owner o among the events from..k. */
  ghost predicate LastTimed(index: Index, events: seq<CostEvent>, from: nat, k: nat, o: Owner, t: nat)
    requires k <= |events|
  {
    from <= t < k && TimedBy(index, events, t, o) && forall m | t < m < k :: !TimedBy(index, events, m, o)
  }

  ghost predicate FirstTimed(index: Index, events: seq<CostEvent>, k: nat, o: Owner, t: nat)
    requires k <= |events|
  {
    t < k && TimedBy(index, events, t, o) && forall m | 0 <= m < t :: !TimedBy(index, events, m, o)
  }

  ghost predicate NoneTimed(index: Index, events: seq<CostEvent>, from: nat, k: nat, o: Owner)
    requires k <= |events|
  {
    forall m | from <= m < k :: !TimedBy(index, events, m, o)
  }

  lemma {:induction false} LastOwnedIs(index: Index, events: seq<CostEvent>, from: nat, k: nat, o: Owner, t: nat)
    requires from <= k <= |events|
    ensures LastTimed(index, events, from, k, o, t) ==> LastOwned(index, events, from, k, o) == events[t].ts
    ensures NoneTimed(index, events, from, k, o) ==> LastOwned(index, events, from, k, o) == None
    decreases k
  {
    hide OwnerAt;
    if k > from {
      LastOwnedIs(index, events, from, k - 1, o, t);
      assert TimedBy(index, events, k - 1, o) <==> TimedTurn(index, events, k - 1, o);
    }
  }

  lemma {:induction false} FirstOwnedIs(index: Index, events: seq<CostEvent>, k: nat, o: Owner, t: nat)
    requires k <= |events|
    ensures FirstTimed(index, events, k, o, t) ==> FirstOwned(index, events, k, o) == events[t].ts
    ensures NoneTimed(index, events, 0, k, o) ==> FirstOwned(index, events, k, o) == None
  {
    hide OwnerAt;
    if k > 0 {
      FirstOwnedIs(index, events, k - 1, o, t);
      assert TimedBy(index, events, k - 1, o) <==> TimedTurn(index, events, k - 1, o);
    }
  }

  /** A segment ends with the timed result that closes it; else with its last
      timed turn before that; else where it began. */
  lemma SegmentEnds(index: Index, events: seq<CostEvent>, i: nat)
    requires i < |events| && IsDispatch(events[i])
    ensures var end := GetOr(ClosedBy(events, i), |events|);
            if end < |events| && events[end].ts.Some? then EndOf(index, events, i) == events[end].ts
            else (forall t: nat | LastTimed(index, events, i + 1, end, ByFrame(i), t) :: EndOf(index, events, i) == events[t].ts)
                 && (NoneTimed(index, events, i + 1, end, ByFrame(i)) ==> EndOf(index, events, i) == events[i].ts)
  {
    hide ClosedBy, LastOwned, LastTimed, NoneTimed;
    var end := GetOr(ClosedBy(events, i), |events|);
    LastOwnedIs(index, events, i + 1, end, ByFrame(i), 0);
    forall t: nat | LastTimed(index, events, i + 1, end, ByFrame(i), t)
      ensures t < |events| && events[t].ts.Some? && LastOwned(index, events, i + 1, end, ByFrame(i)) == events[t].ts
    {
      LastTimedIs(index, events, i + 1, end, ByFrame(i), t);
      LastOwnedIs(index, events, i + 1, end, ByFrame(i), t);
    }
  }

  lemma LastTimedIs(index: Index, events: seq<CostEvent>, from: nat, k: nat, o: Owner, t: nat)
    requires k <= |events| && LastTimed(index, events, from, k, o, t)
    ensures t < |events| && events[t].ts.Some?
  {
    hide OwnerAt;
  }

  /** The orchestrator's span goes from its first timed turn to its last. */
  lemma ThinkingSpan(index: Index, events: seq<CostEvent>, o: Owner, first: nat, last: nat)
    requires FirstTimed(index, events, |events|, o, first) && LastTimed(index, events, 0, |events|, o, last)
    ensures FirstOwned(index, events, |events|, o) == events[first].ts && LastOwned(index, events, 0, |events|, o) == events[last].ts
  {
    FirstOwnedIs(index, events, |events|, o, first);
    LastOwnedIs(index, events, 0, |events|, o, last);
  }
}
