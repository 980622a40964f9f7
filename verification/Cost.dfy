/**
 The flat cost breakdown of apps/ingest/cost_aggregator.py: open segments,
 usage parked by uuid, a current phase, and per-phase orchestration rows.
 */
module Cost {
  import opened Options
  import opened Transcript
  import opened Matching
  import opened Attribution
  import opened Registry
  import opened WallTime
  import Walks

  // ----- Whose turn is it? The rules, read off the stream -----------------

  /** The phase the orchestrator works for: that of the last registered skill it dispatched. */
  ghost function CurrentPhase(index: Index, events: seq<CostEvent>, k: nat): Option<string>
    requires k <= |events|
  {
    if k == 0 then None
    else if IsDispatch(events[k - 1]) && Lookup(index, SkillName(events[k - 1])).Some?
    then Lookup(index, SkillName(events[k - 1]))
    else CurrentPhase(index, events, k - 1)
  }

  ghost function Thinking(index: Index, events: seq<CostEvent>, k: nat): Owner
    requires k <= |events|
  {
    match CurrentPhase(index, events, k)
    case Some(p) => ByPhase(p)
    case None => ByOrchestration
  }

  /** uuid -> parent uuid, "" for none; the last event under a uuid decides. */
  ghost function Parents(events: seq<CostEvent>, k: nat): (g: Walks.Graph)
    requires k <= |events|
    ensures "" !in g
  {
    if k == 0 then map[]
    else if Truthy(events[k - 1].uuid)
    then Parents(events, k - 1)[events[k - 1].uuid.value := GetOr(events[k - 1].parent, "")]
    else Parents(events, k - 1)
  }

  /** The first open dispatch that message u contains. */
  ghost function Holder(events: seq<CostEvent>, open: seq<nat>, u: string): (r: Option<nat>)
    requires FramesOf(events, open)
    ensures r.Some? ==> r.value in open && events[r.value].uuid == Some(u)
    ensures r.None? ==> forall p | 0 <= p < |open| :: events[open[p]].uuid != Some(u)
  {
    if open == [] then None
    else if events[open[0]].uuid == Some(u) then Some(open[0])
    else Holder(events, open[1..], u)
  }

  /** The n-th ancestor message is the nearest that holds an open dispatch. */
  ghost predicate NearestAt(events: seq<CostEvent>, k: nat, n: nat)
    requires k < |events|
  {
    var g, start, open := Parents(events, |events|), GetOr(events[k].parent, ""), OpenAt(events, k);
    Walks.Iter(g, start, n) != "" && Holder(events, open, Walks.Iter(g, start, n)).Some?
    && forall m | 0 <= m < n :: Walks.Iter(g, start, m) != "" && Holder(events, open, Walks.Iter(g, start, m)).None?
  }

  /** The open dispatch a sidechain turn belongs to: the one held by its nearest ancestor message. */
  ghost function SidechainFrame(events: seq<CostEvent>, k: nat): (r: Option<nat>)
    requires k < |events|
    ensures r.Some? ==> r.value in OpenAt(events, k)
  {
    if exists n :: NearestAt(events, k, n) then
      var n :| NearestAt(events, k, n);
      Holder(events, OpenAt(events, k), Walks.Iter(Parents(events, |events|), GetOr(events[k].parent, ""), n))
    else None
  }

  ghost function Deferred(events: seq<CostEvent>): (d: seq<bool>)
    ensures |d| == |events|
  {
    seq(|events|, t requires 0 <= t < |events| =>
      events[t].AssistantTurn? && !events[t].sidechain
      && Truthy(events[t].uuid) && events[t].uuid.value in DispatchUuids(events))
  }

  ghost function OwnerAt(index: Index, events: seq<CostEvent>, t: nat): Owner
    requires t < |events|
  {
    var open := OpenAt(events, t);
    if !events[t].AssistantTurn? then Nobody
    else if events[t].sidechain then
      match SidechainFrame(events, t)
      case Some(i) => ByFrame(i)
      case None => Thinking(index, events, t)
    else if Deferred(events)[t] then Adopter(events, Deferred(events), t)
    else if open != [] then ByFrame(open[|open| - 1])
    else Thinking(index, events, t)
  }

  ghost function Owners(index: Index, events: seq<CostEvent>): (o: seq<Owner>)
    ensures |o| == |events|
  {
    seq(|events|, t requires 0 <= t < |events| => OwnerAt(index, events, t))
  }

  /** Where a segment's invocation is listed: (phase, skill). A skill the
      registry does not know takes the phase current when the segment ends. */
  ghost function KeyOf(index: Index, events: seq<CostEvent>, i: nat): (string, string)
    requires i < |events| && IsDispatch(events[i])
  {
    var skill := SkillName(events[i]);
    var end := GetOr(ClosedBy(events, i), |events|);
    (PhaseOf(index, skill, CurrentPhase(index, events, end)), skill)
  }

  function PhaseOf(index: Index, skill: string, current: Option<string>): string {
    match Lookup(index, skill)
    case Some(p) => p
    case None => GetOr(current, "_other")
  }

  lemma OwnersAttribute(index: Index, events: seq<CostEvent>)
    ensures Attributes(events, Owners(index, events), Deferred(events))
  {
    forall t | 0 <= t < |events| && !Deferred(events)[t] && Owners(index, events)[t].ByFrame?
      ensures Owners(index, events)[t].at < t
    {
      OwnerIsOpen(index, events, t);
    }
  }

  lemma OwnerIsOpen(index: Index, events: seq<CostEvent>, t: nat)
    requires t < |events| && !Deferred(events)[t] && OwnerAt(index, events, t).ByFrame?
    ensures OwnerAt(index, events, t).at in OpenAt(events, t)
    ensures OwnerAt(index, events, t).at < t
  {
  }
}
