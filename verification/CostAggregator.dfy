/**
 The event loop of apps/ingest/cost_aggregator.py, `aggregate`, proved against
 the attribution rules of module Cost.
 */
module CostAggregator {
  import opened Collections
  import opened Options
  import opened Transcript
  import opened Matching
  import opened Attribution
  import opened Registry
  import opened WallTime
  import opened Cost
  import Walks

  /** A dispatch in flight. `at` is the index of its event: a label the model
      carries so that a row can be traced back. */
  datatype Segment = Segment(at: nat, skill: string, id: string, message: Option<string>,
                             start: Option<int>, last: Option<int>, tokens: Tokens)

  datatype Invocation = Invocation(at: nat, start: Option<int>, last: Option<int>, tokens: Tokens, incomplete: bool) {
    function Span(): Interval {
      Interval(start, last)
    }
  }

  /** Orchestrator usage with the first and the last turn's time. */
  datatype Orchestration = Orchestration(tokens: Tokens, first: Option<int>, last: Option<int>) {
    function Absorb(usage: Tokens, ts: Option<int>): Orchestration {
      Orchestration(tokens.Plus(usage),
                    if ts.Some? && first.None? then ts else first,
                    if ts.Some? then ts else last)
    }

    function Span(): Interval {
      Interval(first, last)
    }
  }

  const NoOrchestration := Orchestration(EmptyTokens, None, None)

  type Key = (string, string)

  function Finalize(seg: Segment, incomplete: bool): Invocation {
    Invocation(seg.at, seg.start, seg.last, seg.tokens, incomplete)
  }

  // ----- What each field holds after k events -------------------------------

  /** The time, if present, is that of one of the first k events. */
  ghost predicate Seen(events: seq<CostEvent>, k: nat, ts: Option<int>)
    requires k <= |events|
  {
    ts.Some? ==> exists t :: 0 <= t < k && events[t].ts == ts
  }

  ghost predicate TimedTurn(index: Index, events: seq<CostEvent>, t: nat, o: Owner)
    requires t < |events|
  {
    events[t].AssistantTurn? && events[t].ts.Some? && OwnerAt(index, events, t) == o
  }

  /** The time of the last timed turn of owner o among events from..k. */
  ghost function LastOwned(index: Index, events: seq<CostEvent>, from: nat, k: nat, o: Owner): (ts: Option<int>)
    requires from <= k <= |events|
    ensures Seen(events, k, ts)
    decreases k
  {
    if k == from then None
    else if TimedTurn(index, events, k - 1, o) then events[k - 1].ts
    else LastOwned(index, events, from, k - 1, o)
  }

  ghost function FirstOwned(index: Index, events: seq<CostEvent>, k: nat, o: Owner): (ts: Option<int>)
    requires k <= |events|
    ensures Seen(events, k, ts)
  {
    if k == 0 then None
    else
      var first := FirstOwned(index, events, k - 1, o);
      if first.None? && TimedTurn(index, events, k - 1, o) then events[k - 1].ts else first
  }

  /** A segment in flight reaches to its last turn, or to its own start. */
  ghost function Reach(index: Index, events: seq<CostEvent>, k: nat, i: nat): (ts: Option<int>)
    requires i < k <= |events|
    ensures Seen(events, k, ts)
  {
    var last := LastOwned(index, events, i + 1, k, ByFrame(i));
    if last.Some? then last else events[i].ts
  }

  /** A finished one reaches to the result that closed it, if that is timed. */
  ghost function EndOf(index: Index, events: seq<CostEvent>, i: nat): (ts: Option<int>)
    requires i < |events| && IsDispatch(events[i])
    ensures Seen(events, |events|, ts)
  {
    match ClosedBy(events, i)
    case None => Reach(index, events, |events|, i)
    case Some(j) => if events[j].ts.Some? then events[j].ts else Reach(index, events, j, i)
  }

  ghost predicate SegmentOk(index: Index, events: seq<CostEvent>, k: nat, seg: Segment)
    requires k <= |events|
  {
    seg.at < k && IsDispatch(events[seg.at])
    && seg.skill == SkillName(events[seg.at]) && seg.id == FrameId(events[seg.at])
    && seg.message == events[seg.at].uuid && seg.start == events[seg.at].ts
    && seg.last == Reach(index, events, k, seg.at)
    && seg.tokens == Share(events, Owners(index, events), k, {ByFrame(seg.at)})
  }

  ghost predicate OpenOk(index: Index, events: seq<CostEvent>, k: nat, open: seq<Segment>)
    requires k <= |events|
  {
    |open| == |OpenAt(events, k)|
    && forall p | 0 <= p < |open| :: open[p].at == OpenAt(events, k)[p] && SegmentOk(index, events, k, open[p])
  }

  ghost predicate InvocationOk(index: Index, events: seq<CostEvent>, k: nat, key: Key, inv: Invocation)
    requires k <= |events|
  {
    inv.at < k && IsDispatch(events[inv.at])
    && key == KeyOf(index, events, inv.at)
    && inv.incomplete == ClosedBy(events, inv.at).None?
    && inv.start == events[inv.at].ts && inv.last == EndOf(index, events, inv.at)
    && inv.tokens == Share(events, Owners(index, events), k, {ByFrame(inv.at)})
  }

  ghost predicate HasAt(invs: seq<Invocation>, i: nat) {
    exists j :: 0 <= j < |invs| && invs[j].at == i
  }

  ghost predicate Distinct(invs: seq<Invocation>) {
    forall a, b | 0 <= a < b < |invs| :: invs[a].at != invs[b].at
  }

  ghost predicate ListOk(index: Index, events: seq<CostEvent>, k: nat, key: Key, invs: seq<Invocation>, done: set<nat>)
    requires k <= |events|
  {
    invs != [] && Distinct(invs)
    && forall j | 0 <= j < |invs| :: InvocationOk(index, events, k, key, invs[j]) && invs[j].at in done
  }

  ghost predicate IsListed(index: Index, events: seq<CostEvent>, closed: map<Key, seq<Invocation>>, i: nat) {
    i < |events| && IsDispatch(events[i])
    && KeyOf(index, events, i) in closed && HasAt(closed[KeyOf(index, events, i)], i)
  }

  /** The lists hold exactly the dispatches of `done`, each once, under its key. */
  ghost predicate ClosedOk(index: Index, events: seq<CostEvent>, k: nat, closed: map<Key, seq<Invocation>>, done: set<nat>)
    requires k <= |events|
  {
    (forall key | key in closed :: ListOk(index, events, k, key, closed[key], done))
    && (forall i :: i in done ==> i < k && IsListed(index, events, closed, i))
  }

  ghost predicate OrchestrationOk(index: Index, events: seq<CostEvent>, k: nat, orch: Orchestration, owner: Owner)
    requires k <= |events|
  {
    orch.tokens == Share(events, Owners(index, events), k, {owner})
    && orch.first == FirstOwned(index, events, k, owner)
    && orch.last == LastOwned(index, events, 0, k, owner)
  }

  ghost predicate PhasesOk(index: Index, events: seq<CostEvent>, k: nat, phases: map<string, Orchestration>)
    requires k <= |events|
  {
    forall p :: OrchestrationOk(index, events, k, if p in phases then phases[p] else NoOrchestration, ByPhase(p))
  }

  // ----- Stepping the shares --------------------------------------------------

  /** Only the owner of event k gains by it. */
  lemma OwnerGains(index: Index, events: seq<CostEvent>, k: nat, o: Owner)
    requires k < |events|
    ensures Share(events, Owners(index, events), k + 1, {o}) ==
            if o == OwnerAt(index, events, k)
            then Share(events, Owners(index, events), k, {o}).Plus(UsageOf(events[k]))
            else Share(events, Owners(index, events), k, {o})
  {
    PlusEmpty(Share(events, Owners(index, events), k, {o}));
    var owner, usage := Owners(index, events)[k], UsageOf(events[k]);
    if o == owner {
      assert HeldBy(owner, usage, {o}) == usage;
    } else {
      assert HeldBy(owner, usage, {o}) == EmptyTokens;
    }
  }

  lemma ShareSame(index: Index, events: seq<CostEvent>, k: nat, o: Owner)
    requires k < |events| && (o != OwnerAt(index, events, k) || !events[k].AssistantTurn?)
    ensures Share(events, Owners(index, events), k + 1, {o}) == Share(events, Owners(index, events), k, {o})
  {
    OwnerGains(index, events, k, o);
    PlusEmpty(Share(events, Owners(index, events), k, {o}));
  }

  lemma SeenLater(events: seq<CostEvent>, k: nat, ts: Option<int>)
    requires k < |events|
    ensures Seen(events, k, ts) ==> Seen(events, k + 1, ts)
    ensures Seen(events, k + 1, events[k].ts)
  {
  }

  lemma SegmentLater(index: Index, events: seq<CostEvent>, k: nat, seg: Segment)
    requires k < |events| && SegmentOk(index, events, k, seg)
    requires ByFrame(seg.at) != OwnerAt(index, events, k) || !events[k].AssistantTurn?
    ensures SegmentOk(index, events, k + 1, seg)
  {
    ShareSame(index, events, k, ByFrame(seg.at));
  }

  lemma InvocationLater(index: Index, events: seq<CostEvent>, k: nat, key: Key, inv: Invocation)
    requires k < |events| && InvocationOk(index, events, k, key, inv)
    requires ByFrame(inv.at) != OwnerAt(index, events, k) || !events[k].AssistantTurn?
    ensures InvocationOk(index, events, k + 1, key, inv)
  {
    ShareSame(index, events, k, ByFrame(inv.at));
  }

  lemma ClosedLater(index: Index, events: seq<CostEvent>, k: nat, closed: map<Key, seq<Invocation>>, done: set<nat>)
    requires k < |events| && ClosedOk(index, events, k, closed, done)
    requires forall i :: i in done ==> ByFrame(i) != OwnerAt(index, events, k) || !events[k].AssistantTurn?
    ensures ClosedOk(index, events, k + 1, closed, done)
  {
    forall key | key in closed ensures ListOk(index, events, k + 1, key, closed[key], done) {
      forall j | 0 <= j < |closed[key]| ensures InvocationOk(index, events, k + 1, key, closed[key][j]) {
        InvocationLater(index, events, k, key, closed[key][j]);
      }
    }
  }

  lemma OrchestrationLater(index: Index, events: seq<CostEvent>, k: nat, orch: Orchestration, owner: Owner)
    requires k < |events| && OrchestrationOk(index, events, k, orch, owner)
    requires owner != OwnerAt(index, events, k) || !events[k].AssistantTurn?
    ensures OrchestrationOk(index, events, k + 1, orch, owner)
  {
    ShareSame(index, events, k, owner);
  }

  lemma PhasesLater(index: Index, events: seq<CostEvent>, k: nat, phases: map<string, Orchestration>)
    requires k < |events| && PhasesOk(index, events, k, phases)
    requires !OwnerAt(index, events, k).ByPhase? || !events[k].AssistantTurn?
    ensures PhasesOk(index, events, k + 1, phases)
  {
    forall p
      ensures OrchestrationOk(index, events, k + 1, if p in phases then phases[p] else NoOrchestration, ByPhase(p))
    {
      OrchestrationLater(index, events, k, if p in phases then phases[p] else NoOrchestration, ByPhase(p));
    }
  }

  lemma OrchestrationAbsorbs(index: Index, events: seq<CostEvent>, k: nat, orch: Orchestration, owner: Owner)
    requires k < |events| && events[k].AssistantTurn? && OrchestrationOk(index, events, k, orch, owner)
    requires owner == OwnerAt(index, events, k)
    ensures OrchestrationOk(index, events, k + 1, orch.Absorb(UsageOf(events[k]), events[k].ts), owner)
  {
    OwnerGains(index, events, k, owner);
  }

  // ----- One event, field by field ---------------------------------------------

  /** A dispatch opens a segment that starts with the usage parked for it. */
  lemma Opens(index: Index, events: seq<CostEvent>, k: nat, open: seq<Segment>, pending: map<string, Option<Usage>>)
    requires k < |events| && IsDispatch(events[k])
    requires OpenOk(index, events, k, open) && PendingOk(events, Deferred(events), k, pending)
    ensures var e := events[k];
            OpenOk(index, events, k + 1,
                   open + [Segment(k, SkillName(e), FrameId(e), e.uuid, e.ts, e.ts, DrainedTokens(pending, e.uuid))])
  {
    var e := events[k];
    forall p | 0 <= p < |open| ensures SegmentOk(index, events, k + 1, open[p]) {
      SegmentLater(index, events, k, open[p]);
    }
    DrainsAdopted(events, Deferred(events), k, pending);
    NewSegment(index, events, k);
    assert OpenAt(events, k + 1) == OpenAt(events, k) + [k];
  }

  lemma NewSegment(index: Index, events: seq<CostEvent>, k: nat)
    requires k < |events| && IsDispatch(events[k])
    ensures var e := events[k];
            SegmentOk(index, events, k + 1,
                      Segment(k, SkillName(e), FrameId(e), e.uuid, e.ts, e.ts,
                              AdoptedBefore(events, Adopted(events, Deferred(events), k), k)))
  {
    OwnersAttribute(index, events);
    AdoptedShare(events, Owners(index, events), Deferred(events), k);
    ShareSame(index, events, k, ByFrame(k));
  }

  /** An event that neither opens nor closes a frame and is owned by none of the open ones. */
  lemma OpenKept(index: Index, events: seq<CostEvent>, k: nat, open: seq<Segment>)
    requires k < |events| && OpenOk(index, events, k, open)
    requires OpenAt(events, k + 1) == OpenAt(events, k)
    requires forall p | 0 <= p < |open| :: OwnerAt(index, events, k) != ByFrame(open[p].at) || !events[k].AssistantTurn?
    ensures OpenOk(index, events, k + 1, open)
  {
    forall p | 0 <= p < |open| ensures SegmentOk(index, events, k + 1, open[p]) {
      SegmentLater(index, events, k, open[p]);
    }
  }

  function Absorbed(seg: Segment, usage: Tokens, ts: Option<int>): Segment {
    seg.(tokens := seg.tokens.Plus(usage), last := if ts.Some? then ts else seg.last)
  }

  /** A turn owned by the p-th open frame. */
  lemma OpenAbsorbs(index: Index, events: seq<CostEvent>, k: nat, open: seq<Segment>, p: nat)
    requires k < |events| && events[k].AssistantTurn? && OpenOk(index, events, k, open)
    requires p < |open| && OwnerAt(index, events, k) == ByFrame(open[p].at)
    ensures OpenOk(index, events, k + 1, open[p := Absorbed(open[p], UsageOf(events[k]), events[k].ts)])
  {
    var before, after := OpenAt(events, k), open[p := Absorbed(open[p], UsageOf(events[k]), events[k].ts)];
    assert OpenAt(events, k + 1) == before;
    AbsorbedOk(index, events, k, open[p]);
    hide SegmentOk, OwnerAt, OpenAt;
    forall q | 0 <= q < |after| ensures after[q].at == before[q] && SegmentOk(index, events, k + 1, after[q]) {
      if q != p {
        assert before[q] != before[p];
        SegmentLater(index, events, k, open[q]);
      }
    }
  }

  lemma AbsorbedOk(index: Index, events: seq<CostEvent>, k: nat, seg: Segment)
    requires k < |events| && events[k].AssistantTurn?
    requires SegmentOk(index, events, k, seg) && OwnerAt(index, events, k) == ByFrame(seg.at)
    ensures SegmentOk(index, events, k + 1, Absorbed(seg, UsageOf(events[k]), events[k].ts))
  {
    OwnerGains(index, events, k, ByFrame(seg.at));
  }

  /** A result that closes the p-th open frame. */
  lemma OpenCloses(index: Index, events: seq<CostEvent>, k: nat, open: seq<Segment>, p: nat)
    requires k < |events| && events[k].ToolResult? && OpenOk(index, events, k, open)
    requires p < |open| && p == LastWith(events, OpenAt(events, k), events[k].matched)
    ensures OpenOk(index, events, k + 1, Pop(open, p))
  {
    var before, rest := OpenAt(events, k), Pop(open, p);
    assert OpenAt(events, k + 1) == Without(before, p);
    hide OpenAt, SegmentOk, LastWith, Without, Pop;
    forall q | 0 <= q < |rest|
      ensures rest[q].at == Without(before, p)[q] && SegmentOk(index, events, k + 1, rest[q])
    {
      if q < p {
        SegmentLater(index, events, k, open[q]);
      } else {
        SegmentLater(index, events, k, open[q + 1]);
      }
    }
  }

  function Listed(closed: map<Key, seq<Invocation>>, key: Key): seq<Invocation> {
    if key in closed then closed[key] else []
  }

  /** Listing one more finished segment. */
  lemma Lists(index: Index, events: seq<CostEvent>, k: nat, closed: map<Key, seq<Invocation>>, done: set<nat>,
              key: Key, inv: Invocation)
    requires k <= |events| && ClosedOk(index, events, k, closed, done)
    requires InvocationOk(index, events, k, key, inv) && inv.at !in done
    ensures ClosedOk(index, events, k, closed[key := Listed(closed, key) + [inv]], done + {inv.at})
  {
    var list := Listed(closed, key) + [inv];
    var after := closed[key := list];
    forall other | other in after ensures ListOk(index, events, k, other, after[other], done + {inv.at}) {
      if other == key {
        GrowsList(index, events, k, key, Listed(closed, key), inv, done);
      }
    }
    forall i | i in done + {inv.at} ensures IsListed(index, events, after, i) {
      if i in done {
        StillListed(index, events, closed, key, inv, i);
      } else {
        assert list[|list| - 1].at == i;
      }
    }
  }

  lemma GrowsList(index: Index, events: seq<CostEvent>, k: nat, key: Key, invs: seq<Invocation>, inv: Invocation, done: set<nat>)
    requires k <= |events| && (invs == [] || ListOk(index, events, k, key, invs, done))
    requires InvocationOk(index, events, k, key, inv) && inv.at !in done
    ensures ListOk(index, events, k, key, invs + [inv], done + {inv.at})
  {
  }

  lemma StillListed(index: Index, events: seq<CostEvent>, closed: map<Key, seq<Invocation>>, key: Key, inv: Invocation, i: nat)
    requires IsListed(index, events, closed, i)
    ensures IsListed(index, events, closed[key := Listed(closed, key) + [inv]], i)
  {
    var ik := KeyOf(index, events, i);
    var j :| 0 <= j < |closed[ik]| && closed[ik][j].at == i;
    assert closed[key := Listed(closed, key) + [inv]][ik][j] == closed[ik][j];
  }

  // ----- All fields together --------------------------------------------------------

  ghost predicate Books(index: Index, events: seq<CostEvent>, k: nat, open: seq<Segment>, closed: map<Key, seq<Invocation>>,
                        pending: map<string, Option<Usage>>, phases: map<string, Orchestration>, orch: Orchestration)
    requires k <= |events|
  {
    OpenOk(index, events, k, open)
    && ClosedOk(index, events, k, closed, Done(events, k))
    && PendingOk(events, Deferred(events), k, pending)
    && PhasesOk(index, events, k, phases)
    && OrchestrationOk(index, events, k, orch, ByOrchestration)
  }

  /** What the open segments say about their dispatches. */
  lemma OpenFacts(index: Index, events: seq<CostEvent>, k: nat, open: seq<Segment>)
    requires k <= |events| && OpenOk(index, events, k, open)
    ensures |open| == |OpenAt(events, k)|
    ensures forall p | 0 <= p < |open| ::
              var i := OpenAt(events, k)[p];
              open[p].at == i && open[p].id == FrameId(events[i]) && open[p].message == events[i].uuid
  {
    hide OpenAt;
    forall p | 0 <= p < |open|
      ensures var i := OpenAt(events, k)[p];
              open[p].at == i && open[p].id == FrameId(events[i]) && open[p].message == events[i].uuid
    {
      assert SegmentOk(index, events, k, open[p]);
    }
  }

  /** A turn parked for a dispatch still to come. */
  lemma BooksPark(index: Index, events: seq<CostEvent>, k: nat, open: seq<Segment>, closed: map<Key, seq<Invocation>>,
                  pending: map<string, Option<Usage>>, phases: map<string, Orchestration>, orch: Orchestration)
    requires k < |events| && events[k].AssistantTurn? && Deferred(events)[k]
    requires Books(index, events, k, open, closed, pending, phases, orch)
    ensures Books(index, events, k + 1, open, closed, pending[events[k].uuid.value := events[k].usage], phases, orch)
  {
    hide ClosedOk, PendingOk, PhasesOk, OrchestrationOk;
    DoneKept(events, k);
    OpenKept(index, events, k, open);
    ClosedLater(index, events, k, closed, Done(events, k));
    PendingParked(events, Deferred(events), k, pending);
    PhasesLater(index, events, k, phases);
    OrchestrationLater(index, events, k, orch, ByOrchestration);
  }

  /** A turn that belongs to an open segment. */
  lemma BooksAbsorb(index: Index, events: seq<CostEvent>, k: nat, open: seq<Segment>, closed: map<Key, seq<Invocation>>,
                    pending: map<string, Option<Usage>>, phases: map<string, Orchestration>, orch: Orchestration, p: nat)
    requires k < |events| && events[k].AssistantTurn? && !Deferred(events)[k]
    requires Books(index, events, k, open, closed, pending, phases, orch)
    requires p < |open| && OwnerAt(index, events, k) == ByFrame(open[p].at)
    ensures Books(index, events, k + 1, open[p := Absorbed(open[p], UsageOf(events[k]), events[k].ts)],
                  closed, pending, phases, orch)
  {
    hide OpenOk, ClosedOk, PendingOk, PhasesOk, OrchestrationOk;
    DoneKept(events, k);
    OpenAbsorbs(index, events, k, open, p);
    OpenFacts(index, events, k, open);
    assert open[p].at in OpenAt(events, k);
    ClosedLater(index, events, k, closed, Done(events, k));
    PendingKept(events, Deferred(events), k, pending);
    PhasesLater(index, events, k, phases);
    OrchestrationLater(index, events, k, orch, ByOrchestration);
  }

  /** An orchestrator turn in a phase. */
  lemma BooksThink(index: Index, events: seq<CostEvent>, k: nat, open: seq<Segment>, closed: map<Key, seq<Invocation>>,
                   pending: map<string, Option<Usage>>, phases: map<string, Orchestration>, orch: Orchestration, phase: string)
    requires k < |events| && events[k].AssistantTurn? && !Deferred(events)[k]
    requires Books(index, events, k, open, closed, pending, phases, orch)
    requires OwnerAt(index, events, k) == ByPhase(phase)
    ensures var old_ := if phase in phases then phases[phase] else NoOrchestration;
            Books(index, events, k + 1, open, closed, pending,
                  phases[phase := old_.Absorb(UsageOf(events[k]), events[k].ts)], orch)
  {
    hide OpenOk, ClosedOk, PendingOk, PhasesOk, OrchestrationOk;
    DoneKept(events, k);
    OpenKept(index, events, k, open);
    ClosedLater(index, events, k, closed, Done(events, k));
    PendingKept(events, Deferred(events), k, pending);
    PhasesAbsorb(index, events, k, phases, phase);
    OrchestrationLater(index, events, k, orch, ByOrchestration);
  }

  lemma PhasesAbsorb(index: Index, events: seq<CostEvent>, k: nat, phases: map<string, Orchestration>, phase: string)
    requires k < |events| && events[k].AssistantTurn?
    requires PhasesOk(index, events, k, phases) && OwnerAt(index, events, k) == ByPhase(phase)
    ensures var old_ := if phase in phases then phases[phase] else NoOrchestration;
            PhasesOk(index, events, k + 1, phases[phase := old_.Absorb(UsageOf(events[k]), events[k].ts)])
  {
    hide OrchestrationOk;
    var old_ := if phase in phases then phases[phase] else NoOrchestration;
    var after := phases[phase := old_.Absorb(UsageOf(events[k]), events[k].ts)];
    forall p
      ensures OrchestrationOk(index, events, k + 1, if p in after then after[p] else NoOrchestration, ByPhase(p))
    {
      var was := if p in phases then phases[p] else NoOrchestration;
      if p == phase {
        OrchestrationAbsorbs(index, events, k, was, ByPhase(p));
      } else {
        OrchestrationLater(index, events, k, was, ByPhase(p));
      }
    }
  }

  /** An orchestrator turn before any phase. */
  lemma BooksOrchestrate(index: Index, events: seq<CostEvent>, k: nat, open: seq<Segment>, closed: map<Key, seq<Invocation>>,
                         pending: map<string, Option<Usage>>, phases: map<string, Orchestration>, orch: Orchestration)
    requires k < |events| && events[k].AssistantTurn? && !Deferred(events)[k]
    requires Books(index, events, k, open, closed, pending, phases, orch)
    requires OwnerAt(index, events, k) == ByOrchestration
    ensures Books(index, events, k + 1, open, closed, pending, phases, orch.Absorb(UsageOf(events[k]), events[k].ts))
  {
    hide OpenOk, ClosedOk, PendingOk, PhasesOk, OrchestrationOk;
    DoneKept(events, k);
    OpenKept(index, events, k, open);
    ClosedLater(index, events, k, closed, Done(events, k));
    PendingKept(events, Deferred(events), k, pending);
    PhasesLater(index, events, k, phases);
    OrchestrationAbsorbs(index, events, k, orch, ByOrchestration);
  }

  /** A tool use that dispatches nothing, or a result that closes nothing. */
  lemma BooksSkip(index: Index, events: seq<CostEvent>, k: nat, open: seq<Segment>, closed: map<Key, seq<Invocation>>,
                  pending: map<string, Option<Usage>>, phases: map<string, Orchestration>, orch: Orchestration)
    requires k < |events| && !events[k].AssistantTurn? && !IsDispatch(events[k])
    requires OpenAt(events, k + 1) == OpenAt(events, k)
    requires Books(index, events, k, open, closed, pending, phases, orch)
    ensures Books(index, events, k + 1, open, closed, pending, phases, orch)
  {
    hide OpenOk, ClosedOk, PendingOk, PhasesOk, OrchestrationOk;
    DoneKept(events, k);
    OpenKept(index, events, k, open);
    ClosedLater(index, events, k, closed, Done(events, k));
    PendingKept(events, Deferred(events), k, pending);
    PhasesLater(index, events, k, phases);
    OrchestrationLater(index, events, k, orch, ByOrchestration);
  }

  lemma BooksOpen(index: Index, events: seq<CostEvent>, k: nat, open: seq<Segment>, closed: map<Key, seq<Invocation>>,
                  pending: map<string, Option<Usage>>, phases: map<string, Orchestration>, orch: Orchestration)
    requires k < |events| && IsDispatch(events[k])
    requires Books(index, events, k, open, closed, pending, phases, orch)
    ensures var e := events[k];
            Books(index, events, k + 1,
                  open + [Segment(k, SkillName(e), FrameId(e), e.uuid, e.ts, e.ts, DrainedTokens(pending, e.uuid))],
                  closed, if Truthy(e.uuid) then pending - {e.uuid.value} else pending, phases, orch)
  {
    hide OpenOk, ClosedOk, PendingOk, PhasesOk, OrchestrationOk;
    DoneKept(events, k);
    Opens(index, events, k, open, pending);
    ClosedLater(index, events, k, closed, Done(events, k));
    PendingDrained(events, Deferred(events), k, pending);
    PhasesLater(index, events, k, phases);
    OrchestrationLater(index, events, k, orch, ByOrchestration);
  }

  lemma BooksClose(index: Index, events: seq<CostEvent>, k: nat, open: seq<Segment>, closed: map<Key, seq<Invocation>>,
                   pending: map<string, Option<Usage>>, phases: map<string, Orchestration>, orch: Orchestration, p: nat)
    requires k < |events| && events[k].ToolResult?
    requires Books(index, events, k, open, closed, pending, phases, orch)
    requires p < |open| && p == LastWith(events, OpenAt(events, k), events[k].matched)
    ensures var inv := Finalize(Ended(open[p], events[k].ts), false);
            var key := (PhaseOf(index, open[p].skill, CurrentPhase(index, events, k)), open[p].skill);
            Books(index, events, k + 1, Pop(open, p),
                  closed[key := Listed(closed, key) + [inv]], pending, phases, orch)
  {
    hide OpenOk, ClosedOk, PendingOk, PhasesOk, OrchestrationOk;
    OpenCloses(index, events, k, open, p);
    ClosedGains(index, events, k, open, closed, p);
    PendingKept(events, Deferred(events), k, pending);
    PhasesLater(index, events, k, phases);
    OrchestrationLater(index, events, k, orch, ByOrchestration);
  }

  lemma ClosedGains(index: Index, events: seq<CostEvent>, k: nat, open: seq<Segment>, closed: map<Key, seq<Invocation>>, p: nat)
    requires k < |events| && events[k].ToolResult?
    requires OpenOk(index, events, k, open) && ClosedOk(index, events, k, closed, Done(events, k))
    requires p < |open| && p == LastWith(events, OpenAt(events, k), events[k].matched)
    ensures var inv := Finalize(Ended(open[p], events[k].ts), false);
            var key := (PhaseOf(index, open[p].skill, CurrentPhase(index, events, k)), open[p].skill);
            ClosedOk(index, events, k + 1, closed[key := Listed(closed, key) + [inv]], Done(events, k + 1))
  {
    OpenFacts(index, events, k, open);
    ClosesOne(events, k, p);
    EndedOk(index, events, k, open, p);
    hide OpenOk, ClosedOk, InvocationOk, OpenAt, Done, LastWith, CurrentPhase, Listed, ClosedBy;
    ClosedLater(index, events, k, closed, Done(events, k));
    Lists(index, events, k + 1, closed, Done(events, k),
          (PhaseOf(index, open[p].skill, CurrentPhase(index, events, k)), open[p].skill),
          Finalize(Ended(open[p], events[k].ts), false));
  }

  function Ended(seg: Segment, ts: Option<int>): Segment {
    seg.(last := if ts.Some? then ts else seg.last)
  }

  lemma EndedOk(index: Index, events: seq<CostEvent>, k: nat, open: seq<Segment>, p: nat)
    requires k < |events| && events[k].ToolResult? && OpenOk(index, events, k, open)
    requires p < |open| && ClosedBy(events, OpenAt(events, k)[p]) == Some(k)
    ensures var seg := open[p];
            InvocationOk(index, events, k + 1,
                         (PhaseOf(index, seg.skill, CurrentPhase(index, events, k)), seg.skill),
                         Finalize(Ended(seg, events[k].ts), false))
  {
    hide OpenAt, ClosedBy, CurrentPhase;
    SegmentLater(index, events, k, open[p]);
  }

  /** The four cases of a turn's owner. */
  lemma TurnOwnerIs(index: Index, events: seq<CostEvent>, k: nat)
    requires k < |events| && events[k].AssistantTurn?
    ensures var e, open, owner := events[k], OpenAt(events, k), OwnerAt(index, events, k);
            (Deferred(events)[k] <==> !e.sidechain && Truthy(e.uuid) && e.uuid.value in DispatchUuids(events))
            && (e.sidechain && SidechainFrame(events, k).Some? ==> owner == ByFrame(SidechainFrame(events, k).value))
            && (e.sidechain && SidechainFrame(events, k).None? ==> owner == Thinking(index, events, k))
            && (!e.sidechain && !Deferred(events)[k] ==>
                  owner == if open != [] then ByFrame(open[|open| - 1]) else Thinking(index, events, k))
  {
    hide OpenAt, SidechainFrame, DispatchUuids;
  }

  // ----- The session's clock -----------------------------------------------------

  /** The first and the last time among the first k events. */
  ghost predicate Clock(events: seq<CostEvent>, k: nat, first: Option<int>, last: Option<int>)
    requires k <= |events|
  {
    Seen(events, k, first) && Seen(events, k, last)
    && forall t | 0 <= t < k && events[t].ts.Some? ::
         first.Some? && last.Some? && first.value <= events[t].ts.value <= last.value
  }

  // ----- Sidechain turns -----------------------------------------------------------

  lemma NearestUnique(events: seq<CostEvent>, k: nat, n: nat)
    requires k < |events| && NearestAt(events, k, n)
    ensures SidechainFrame(events, k) ==
            Holder(events, OpenAt(events, k), Walks.Iter(Parents(events, |events|), GetOr(events[k].parent, ""), n))
  {
    forall m: nat | NearestAt(events, k, m) ensures m == n {
    }
  }

  lemma NoneNearest(events: seq<CostEvent>, k: nat, seen: set<string>)
    requires k < |events|
    requires Walks.Closed(Parents(events, |events|), seen)
    requires GetOr(events[k].parent, "") in seen + {""}
    requires forall c :: c in seen ==> Holder(events, OpenAt(events, k), c).None?
    ensures SidechainFrame(events, k).None?
  {
    forall n: nat ensures !NearestAt(events, k, n) {
      Walks.NeverLeaves(Parents(events, |events|), seen, GetOr(events[k].parent, ""), n);
    }
  }

  /** The climb's invariant: `seen` are the first n ancestors, none of which holds an open dispatch. */
  ghost predicate Climbed(events: seq<CostEvent>, k: nat, g: Walks.Graph, start: string, cur: string, seen: set<string>, n: nat)
    requires k <= |events|
  {
    cur == Walks.Iter(g, start, n)
    && (start == cur || start in seen)
    && (forall c :: c in seen ==> c != "" && Holder(events, OpenAt(events, k), c).None?)
    && (forall c :: c in seen ==> Walks.Next(g, c) == cur || Walks.Next(g, c) in seen)
    && (forall m | 0 <= m < n :: Walks.Iter(g, start, m) in seen)
  }

  lemma ClimbsOne(events: seq<CostEvent>, k: nat, g: Walks.Graph, start: string, cur: string, seen: set<string>, n: nat)
    requires k <= |events| && Climbed(events, k, g, start, cur, seen, n)
    requires cur != "" && Holder(events, OpenAt(events, k), cur).None?
    ensures Climbed(events, k, g, start, Walks.Next(g, cur), seen + {cur}, n + 1)
  {
  }

  lemma ClimbShrinks(g: Walks.Graph, seen: set<string>, cur: string)
    requires cur != "" && cur !in seen
    ensures var next := Walks.Next(g, cur);
            |g.Keys - (seen + {cur})| + (if next != "" then 1 else 0) < |g.Keys - seen| + 1
  {
    if cur in g {
      assert g.Keys - (seen + {cur}) == (g.Keys - seen) - {cur};
    } else {
      assert g.Keys - (seen + {cur}) == g.Keys - seen;
    }
  }

  // ----- The loop ----------------------------------------------------------------

  class Aggregator {
    const index: Index
    var open: seq<Segment>
    var closed: map<Key, seq<Invocation>>
    var pending: map<string, Option<Usage>>
    var currentPhase: Option<string>
    var phaseOrch: map<string, Orchestration>
    var orch: Orchestration
    var totals: Tokens
    var firstTs: Option<int>
    var lastTs: Option<int>

    /** Every accumulator holds exactly what the rules give it of the first k events. */
    ghost predicate Accounts(events: seq<CostEvent>, k: nat)
      requires k <= |events|
      reads this
    {
      Books(index, events, k, open, closed, pending, phaseOrch, orch)
      && currentPhase == CurrentPhase(index, events, k)
      && totals == Total(events, k)
    }

    constructor (index: Index)
      ensures this.index == index
      ensures forall events: seq<CostEvent> :: Accounts(events, 0) && Clock(events, 0, firstTs, lastTs)
    {
      this.index := index;
      open, closed, pending, currentPhase := [], map[], map[], None;
      phaseOrch, orch := map[], NoOrchestration;
      totals, firstTs, lastTs := EmptyTokens, None, None;
    }

    method Observe(ghost events: seq<CostEvent>, ghost k: nat, ts: Option<int>)
      requires k < |events| && events[k].ts == ts && Clock(events, k, firstTs, lastTs)
      modifies this`firstTs, this`lastTs
      ensures Clock(events, k + 1, firstTs, lastTs)
    {
      SeenLater(events, k, firstTs);
      SeenLater(events, k, lastTs);
      if ts.Some? {
        if firstTs.None? || ts.value < firstTs.value {
          firstTs := ts;
        }
        if lastTs.None? || ts.value > lastTs.value {
          lastTs := ts;
        }
      }
    }

    method OpenSegment(ghost events: seq<CostEvent>, k: nat, e: CostEvent)
      requires k < |events| && events[k] == e && IsDispatch(e) && Accounts(events, k)
      modifies this`open, this`pending, this`currentPhase
      ensures Accounts(events, k + 1)
    {
      hide Books;
      BooksOpen(index, events, k, open, closed, pending, phaseOrch, orch);
      PlusEmpty(totals);
      var skill := SkillName(e);
      var entry := Lookup(index, skill);
      if entry.Some? {
        currentPhase := entry;
      }
      var tokens := TakeParked(e.uuid);
      open := open + [Segment(k, skill, FrameId(e), e.uuid, e.ts, e.ts, tokens)];
    }

    /** Takes the usage parked for the dispatch that is opening. */
    method TakeParked(uuid: Option<string>) returns (tokens: Tokens)
      modifies this`pending
      ensures tokens == DrainedTokens(old(pending), uuid)
      ensures pending == if Truthy(uuid) then old(pending) - {uuid.value} else old(pending)
    {
      tokens := EmptyTokens;
      if Truthy(uuid) {
        if uuid.value in pending {
          tokens := tokens.Plus(Counted(pending[uuid.value]));
          PlusEmpty(Counted(pending[uuid.value]));
          pending := pending - {uuid.value};
        } else {
          assert pending - {uuid.value} == pending;
        }
      }
    }

    /** The last open segment with the given id, or -1. */
    method FindMatch(ghost events: seq<CostEvent>, ghost k: nat, id: Option<string>) returns (p: int)
      requires k <= |events| && OpenOk(index, events, k, open)
      ensures -1 <= p < |open| && p == LastWith(events, OpenAt(events, k), id)
    {
      hide OpenAt, LastWith, OpenOk;
      OpenFacts(index, events, k, open);
      p := -1;
      for i := |open| downto 0
        invariant forall q | i <= q < |open| :: Some(open[q].id) != id
      {
        if Some(open[i].id) == id {
          p := i;
          break;
        }
      }
      LastWithIs(events, OpenAt(events, k), id, p);
    }

    method CloseSegment(ghost events: seq<CostEvent>, ghost k: nat, e: CostEvent)
      requires k < |events| && events[k] == e && e.ToolResult? && Accounts(events, k)
      modifies this`open, this`closed
      ensures Accounts(events, k + 1)
    {
      hide OpenOk, ClosedOk, PendingOk, PhasesOk, OrchestrationOk;
      PlusEmpty(totals);
      var p := FindMatch(events, k, e.matched);
      if p < 0 {
        BooksSkip(index, events, k, open, closed, pending, phaseOrch, orch);
        return;
      }
      BooksClose(index, events, k, open, closed, pending, phaseOrch, orch, p);
      var seg := Ended(open[p], e.ts);
      open := Pop(open, p);
      var key := (PhaseOf(index, seg.skill, currentPhase), seg.skill);
      closed := closed[key := Listed(closed, key) + [Finalize(seg, false)]];
    }

    /** Position of the first open segment that message u contains, or -1. */
    method FindHolder(ghost events: seq<CostEvent>, ghost k: nat, u: string) returns (p: int)
      requires k <= |events| && OpenOk(index, events, k, open)
      ensures -1 <= p < |open|
      ensures p < 0 ==> Holder(events, OpenAt(events, k), u).None?
      ensures p >= 0 ==> Holder(events, OpenAt(events, k), u) == Some(open[p].at)
    {
      for i := 0 to |open|
        invariant Holder(events, OpenAt(events, k), u) == Holder(events, OpenAt(events, k)[i..], u)
      {
        assert OpenAt(events, k)[i..][1..] == OpenAt(events, k)[i + 1..];
        if open[i].message == Some(u) {
          return i;
        }
      }
      p := -1;
    }

    /** Walks parent uuids upward to the nearest message that holds an open segment. */
    method ResolveSidechain(ghost events: seq<CostEvent>, ghost k: nat, e: CostEvent, parents: Walks.Graph)
      returns (p: int)
      requires k < |events| && events[k] == e && parents == Parents(events, |events|)
      requires OpenOk(index, events, k, open)
      ensures -1 <= p < |open|
      ensures p < 0 ==> SidechainFrame(events, k).None?
      ensures p >= 0 ==> SidechainFrame(events, k) == Some(open[p].at)
    {
      var start := GetOr(e.parent, "");
      var cur, seen := start, {};
      ghost var n := 0;
      while cur != "" && cur !in seen
        invariant Climbed(events, k, parents, start, cur, seen, n)
        decreases |parents.Keys - seen| + if cur != "" then 1 else 0
      {
        p := FindHolder(events, k, cur);
        if p >= 0 {
          assert NearestAt(events, k, n);
          NearestUnique(events, k, n);
          return;
        }
        ClimbShrinks(parents, seen, cur);
        ClimbsOne(events, k, parents, start, cur, seen, n);
        seen := seen + {cur};
        cur := Walks.Next(parents, cur);
        n := n + 1;
      }
      NoneNearest(events, k, seen);
      p := -1;
    }

    /** An assistant turn: parked, or handed to a segment, a phase or the global orchestration row. */
    method Turn(ghost events: seq<CostEvent>, ghost k: nat, e: CostEvent, dispatchUuids: set<string>, parents: Walks.Graph)
      requires k < |events| && events[k] == e && e.AssistantTurn? && Accounts(events, k)
      requires dispatchUuids == DispatchUuids(events) && parents == Parents(events, |events|)
      modifies this`open, this`pending, this`phaseOrch, this`orch, this`totals
      ensures Accounts(events, k + 1)
    {
      hide OpenOk, ClosedOk, PendingOk, PhasesOk, OrchestrationOk, OwnerAt, Deferred, OpenAt, Thinking, Absorbed;
      OpenFacts(index, events, k, open);
      TurnOwnerIs(index, events, k);
      totals := totals.Plus(Counted(e.usage));
      var p := -1;
      if e.sidechain {
        p := ResolveSidechain(events, k, e, parents);
      } else if Truthy(e.uuid) && e.uuid.value in dispatchUuids {
        BooksPark(index, events, k, open, closed, pending, phaseOrch, orch);
        pending := pending[e.uuid.value := e.usage];
        return;
      } else if open != [] {
        p := |open| - 1;
      }
      if p >= 0 {
        BooksAbsorb(index, events, k, open, closed, pending, phaseOrch, orch, p);
        open := open[p := Absorbed(open[p], Counted(e.usage), e.ts)];
      } else {
        Think(events, k, e);
      }
    }

    method Think(ghost events: seq<CostEvent>, ghost k: nat, e: CostEvent)
      requires k < |events| && events[k] == e && e.AssistantTurn? && !Deferred(events)[k]
      requires OwnerAt(index, events, k) == Thinking(index, events, k)
      requires Books(index, events, k, open, closed, pending, phaseOrch, orch)
      requires currentPhase == CurrentPhase(index, events, k)
      modifies this`phaseOrch, this`orch
      ensures Books(index, events, k + 1, open, closed, pending, phaseOrch, orch)
    {
      hide Books;
      match currentPhase
      case Some(phase) =>
        BooksThink(index, events, k, open, closed, pending, phaseOrch, orch, phase);
        var before := if phase in phaseOrch then phaseOrch[phase] else NoOrchestration;
        phaseOrch := phaseOrch[phase := before.Absorb(Counted(e.usage), e.ts)];
      case None =>
        BooksOrchestrate(index, events, k, open, closed, pending, phaseOrch, orch);
        orch := orch.Absorb(Counted(e.usage), e.ts);
    }

    /** One iteration of the event loop. */
    method Step(ghost events: seq<CostEvent>, k: nat, e: CostEvent, dispatchUuids: set<string>, parents: Walks.Graph)
      requires k < |events| && events[k] == e && Accounts(events, k) && Clock(events, k, firstTs, lastTs)
      requires dispatchUuids == DispatchUuids(events) && parents == Parents(events, |events|)
      modifies this
      ensures Accounts(events, k + 1) && Clock(events, k + 1, firstTs, lastTs)
    {
      hide Books;
      Observe(events, k, e.ts);
      if IsDispatch(e) {
        OpenSegment(events, k, e);
      } else if e.ToolResult? {
        CloseSegment(events, k, e);
      } else if e.AssistantTurn? {
        Turn(events, k, e, dispatchUuids, parents);
      } else {
        BooksSkip(index, events, k, open, closed, pending, phaseOrch, orch);
        PlusEmpty(totals);
      }
    }

    /** Lists the segments still open at the end of the stream as interrupted. */
    method Finish(ghost events: seq<CostEvent>)
      requires Accounts(events, |events|)
      modifies this`open, this`closed
      ensures ClosedOk(index, events, |events|, closed, DoneBut(events, 0))
    {
      hide PendingOk, PhasesOk, OrchestrationOk, ClosedOk, OpenAt;
      ghost var n := |events|;
      DoneButOpen(events);
      while open != []
        invariant |open| <= |OpenAt(events, n)|
        invariant forall p | 0 <= p < |open| :: open[p].at == OpenAt(events, n)[p] && SegmentOk(index, events, n, open[p])
        invariant ClosedOk(index, events, n, closed, DoneBut(events, |open|))
        decreases |open|
      {
        var last := |open| - 1;
        var seg := open[last];
        InterruptedOk(index, events, seg, last);
        open := open[..last];
        var key := (PhaseOf(index, seg.skill, currentPhase), seg.skill);
        Lists(index, events, n, closed, DoneBut(events, last + 1), key, Finalize(seg, true));
        closed := closed[key := Listed(closed, key) + [Finalize(seg, true)]];
      }
    }
  }

  /** Every dispatch but the first m of those in flight at the end. */
  ghost function DoneBut(events: seq<CostEvent>, m: nat): (done: set<nat>)
    requires m <= |OpenAt(events, |events|)|
    ensures forall i: nat :: i in done <==> i < |events| && IsDispatch(events[i]) && i !in OpenAt(events, |events|)[..m]
  {
    set i | 0 <= i < |events| && IsDispatch(events[i]) && i !in OpenAt(events, |events|)[..m]
  }

  lemma DoneButOpen(events: seq<CostEvent>)
    ensures DoneBut(events, |OpenAt(events, |events|)|) == Done(events, |events|)
  {
    var open := OpenAt(events, |events|);
    assert open[..|open|] == open;
  }

  lemma InterruptedOk(index: Index, events: seq<CostEvent>, seg: Segment, last: nat)
    requires SegmentOk(index, events, |events|, seg)
    requires last < |OpenAt(events, |events|)| && OpenAt(events, |events|)[last] == seg.at
    ensures InvocationOk(index, events, |events|,
                         (PhaseOf(index, seg.skill, CurrentPhase(index, events, |events|)), seg.skill), Finalize(seg, true))
    ensures seg.at !in DoneBut(events, last + 1)
    ensures DoneBut(events, last) == DoneBut(events, last + 1) + {seg.at}
  {
    hide OpenAt, Scan, DoneBut;
    InFlight(events, |events|, seg.at);
    var open, i := OpenAt(events, |events|), seg.at;
    assert open[..last + 1] == open[..last] + [i];
    assert open[..last + 1][last] == i;
    forall j: nat ensures j in DoneBut(events, last) <==> j in DoneBut(events, last + 1) + {i} {
      if j == i {
        assert i !in open[..last];
      }
    }
  }
}
