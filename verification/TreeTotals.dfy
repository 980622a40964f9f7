/**
 What the finished structure tree keeps of the whole stream: every call once,
 every token once.
 */
module TreeTotals {
  import opened Options
  import opened Transcript
  import opened Matching
  import opened Attribution
  import opened Registry
  import opened Structure
  import opened Tree
  import opened TreeSteps
  import opened Subtrees
  import opened TreeReport

  /** One skill row per dispatch and one tool row per other tool use; nothing else. */
  lemma EveryCallOnce(r: Run, report: map<string, Phase>, totals: Tokens, i: nat)
    requires TreeOk(r, report, totals)
    ensures ReportLabels(report)[SkillAt(i)] == if i < |r.events| && IsDispatch(r.events[i]) then 1 else 0
    ensures ReportLabels(report)[ToolAt(i)] == if i < |r.events| && IsTool(r.events[i]) then 1 else 0
  {
    hide PhaseOk, ReportLabels, EventLabels, Share, HomeOwners, IsDispatch, IsTool;
    LabelCount(r.events, |r.events|, SkillAt(i));
    LabelCount(r.events, |r.events|, ToolAt(i));
  }

  lemma {:induction false} ChildWithin(nodes: seq<Node>, c: nat)
    requires c < |nodes|
    ensures Labels(nodes[c]) <= AllLabels(nodes)
  {
    hide Labels;
    if c < |nodes| - 1 {
      ChildWithin(nodes[..|nodes| - 1], c);
    }
  }

  lemma {:induction false} PhaseWithin(report: map<string, Phase>, p: string)
    requires p in report
    ensures AllLabels(report[p].children) <= ReportLabels(report)
    decreases |report|
  {
    hide AllLabels;
    var q :| q in report && ReportLabels(report) == ReportLabels(report - {q}) + AllLabels(report[q].children);
    hide ReportLabels;
    if q != p {
      PhaseWithin(report - {q}, p);
      assert (report - {q})[p] == report[p];
    }
    PartOfSum(AllLabels(report[p].children), ReportLabels(report - {q}), AllLabels(report[q].children));
  }

  lemma PartOfSum(part: multiset<Label>, a: multiset<Label>, b: multiset<Label>)
    requires part <= a || part <= b
    ensures part <= a + b
  {
    assert forall l | l in part :: part[l] <= a[l] || part[l] <= b[l];
  }

  /** A top-level skill's counters are the usage of all turns of its own and of
      the skills below it, each turn once. */
  lemma SkillRowTokens(r: Run, report: map<string, Phase>, totals: Tokens, p: string, c: nat)
    requires TreeOk(r, report, totals) && p in report && c < |report[p].children| && report[p].children[c].SkillNode?
    ensures report[p].children[c].tokens == Held(r, Labels(report[p].children[c]))
  {
    hide *;
    var node := report[p].children[c];
    ReportFacts(r, report, totals, p, c);
    PhaseWithin(report, p);
    ChildWithin(report[p].children, c);
    EventLabelsDistinct(r.events, |r.events|);
    DistinctWithin(Labels(node), EventLabels(r.events, |r.events|));
    SubtreeTokens(r, None, node);
  }

  lemma ReportFacts(r: Run, report: map<string, Phase>, totals: Tokens, p: string, c: nat)
    requires TreeOk(r, report, totals) && p in report && c < |report[p].children|
    ensures ReportLabels(report) == EventLabels(r.events, |r.events|)
    ensures report[p].children[c].SkillNode? ==> NodeOk(r, None, report[p].children[c])
  {
    hide ReportLabels, EventLabels, NodeOk, Share, HomeOwners, TurnOwners, HomeOf, OwnShare, DirectOk;
    assert PhaseOk(r, p, report[p]);
    assert RowOk(r, p, report[p].children[c]);
  }

  // ----- Tokens ------------------------------------------------------------------------

  ghost function PhaseSum(report: map<string, Phase>): Tokens {
    if report == map[] then EmptyTokens else
      var p :| p in report;
      PhaseSum(report - {p}).Plus(report[p].tokens)
  }

  ghost function CoveredOwners(r: Run, phases: set<string>): set<Owner> {
    (set p | p in phases :: ByPhase(p))
    + set i: nat | i < |r.events| && IsDispatch(r.events[i]) && HomeOf(r, RootOf(r, i)) in phases :: ByFrame(i)
  }

  lemma CoveredSplit(r: Run, phases: set<string>, p: string)
    requires p in phases
    ensures CoveredOwners(r, phases) == CoveredOwners(r, phases - {p}) + HomeOwners(r, p)
    ensures CoveredOwners(r, phases - {p}) !! HomeOwners(r, p)
  {
    hide HomeOf, RootOf;
    forall o ensures o in CoveredOwners(r, phases) <==> o in CoveredOwners(r, phases - {p}) || o in HomeOwners(r, p) {
    }
  }

  lemma {:induction false} HomesAddUp(r: Run, report: map<string, Phase>)
    requires forall p | p in report :: PhaseOk(r, p, report[p])
    ensures PhaseSum(report) == Share(r.events, TurnOwners(r), |r.events|, CoveredOwners(r, report.Keys))
    decreases |report|
  {
    hide TurnOwners, PhaseOk, HomeOwners, CoveredOwners;
    if report == map[] {
      CoversNothing(r);
      ShareOfNone(r.events, TurnOwners(r), |r.events|, {});
    } else {
      var p :| p in report && PhaseSum(report) == PhaseSum(report - {p}).Plus(report[p].tokens);
      hide PhaseSum, Share;
      HomesAddUp(r, report - {p});
      assert (report - {p}).Keys == report.Keys - {p};
      CoveredSplit(r, report.Keys, p);
      ShareUnion(r.events, TurnOwners(r), |r.events|, CoveredOwners(r, report.Keys - {p}), HomeOwners(r, p));
      HomeShare(r, p, report[p]);
    }
  }

  lemma CoversNothing(r: Run)
    ensures CoveredOwners(r, {}) == {}
  {
    hide HomeOf, RootOf;
  }

  lemma HomeShare(r: Run, p: string, phase: Phase)
    requires PhaseOk(r, p, phase)
    ensures phase.tokens == Share(r.events, TurnOwners(r), |r.events|, HomeOwners(r, p))
  {
    hide RowOk, HomeOwners, Share, TurnOwners;
  }

  /** A turn that some skill or phase owns is in a phase with a row, or used nothing. */
  lemma TurnCovered(r: Run, report: map<string, Phase>, totals: Tokens, t: nat)
    requires TreeOk(r, report, totals) && t < |r.events|
    requires TurnOwner(r, t) != Nobody && TurnOwner(r, t) !in CoveredOwners(r, report.Keys)
    ensures UsageOf(r.events[t]) == EmptyTokens
  {
    hide *;
    if r.events[t].AssistantTurn? {
      OwnerHasPhase(r, t);
      var p := PhaseOfOwner(r, TurnOwner(r, t));
      OwnedByPhase(r, TurnOwner(r, t), report.Keys);
      Rowless(r, report, totals, p);
      TurnOwnersAt(r, t);
      OwnedIsCounted(r.events, TurnOwners(r), |r.events|, t, HomeOwners(r, p));
    } else {
      NoUsage(r.events[t]);
    }
  }

  ghost function PhaseOfOwner(r: Run, o: Owner): string {
    if o.ByPhase? then o.phase
    else if o.ByFrame? && o.at < |r.events| && IsDispatch(r.events[o.at]) then HomeOf(r, RootOf(r, o.at))
    else ""
  }

  ghost predicate HasPhase(r: Run, o: Owner) {
    o.ByPhase? || (o.ByFrame? && o.at < |r.events| && IsDispatch(r.events[o.at]))
  }

  lemma OwnerHasPhase(r: Run, t: nat)
    requires t < |r.events| && r.events[t].AssistantTurn? && TurnOwner(r, t) != Nobody
    ensures HasPhase(r, TurnOwner(r, t))
  {
    var open := OpenAt(r.events, t);
    assert FramesOf(r.events, open);
    hide OpenAt, ActiveAt, PhaseAt, DispatchUuids, NextClaim;
  }

  lemma OwnedByPhase(r: Run, o: Owner, phases: set<string>)
    requires HasPhase(r, o)
    ensures o in HomeOwners(r, PhaseOfOwner(r, o))
    ensures PhaseOfOwner(r, o) in phases ==> o in CoveredOwners(r, phases)
  {
    hide HomeOf, RootOf;
  }

  lemma Rowless(r: Run, report: map<string, Phase>, totals: Tokens, p: string)
    requires TreeOk(r, report, totals)
    ensures p !in report ==> Share(r.events, TurnOwners(r), |r.events|, HomeOwners(r, p)) == EmptyTokens
    ensures totals == Total(r.events, |r.events|)
    ensures forall p | p in report :: PhaseOk(r, p, report[p])
  {
    hide PhaseOk, Share, TurnOwners, HomeOwners, ReportLabels, EventLabels, Total;
  }

  lemma TurnOwnersAt(r: Run, t: nat)
    requires t < |r.events|
    ensures |TurnOwners(r)| == |r.events| && TurnOwners(r)[t] == TurnOwner(r, t)
  {
    hide TurnOwner;
  }

  lemma NoUsage(e: CostEvent)
    ensures !e.AssistantTurn? ==> UsageOf(e) == EmptyTokens
  {
  }

  lemma NobodyUncovered(r: Run, phases: set<string>)
    ensures CoveredOwners(r, phases) !! {Nobody}
  {
    hide HomeOf, RootOf;
  }

  /** Phase totals add up to the session's, but for dispatch turns that no
      dispatch ever took over. */
  lemma PhasesAddUp(r: Run, report: map<string, Phase>, totals: Tokens)
    requires TreeOk(r, report, totals)
    ensures PhaseSum(report).Plus(OwnShare(r, |r.events|, Nobody)) == totals
  {
    hide *;
    Rowless(r, report, totals, "");
    HomesAddUp(r, report);
    NobodyUncovered(r, report.Keys);
    var all := CoveredOwners(r, report.Keys) + {Nobody};
    forall t | 0 <= t < |r.events| && TurnOwners(r)[t] !in all ensures UsageOf(r.events[t]) == EmptyTokens {
      TurnOwnersAt(r, t);
      TurnCovered(r, report, totals, t);
    }
    LengthOf(r);
    ShareUnion(r.events, TurnOwners(r), |r.events|, CoveredOwners(r, report.Keys), {Nobody});
    ShareOfSpenders(r.events, TurnOwners(r), |r.events|, all);
    OwnShareIs(r, Nobody);
  }

  lemma LengthOf(r: Run)
    ensures |TurnOwners(r)| == |r.events|
  {
  }

  lemma OwnShareIs(r: Run, o: Owner)
    ensures OwnShare(r, |r.events|, o) == Share(r.events, TurnOwners(r), |r.events|, {o})
  {
    hide Share;
  }

  /** On any transcript whose lines have distinct uuids, the four counters
      summed over phases are the session's, exactly. */
  lemma ParsedPhasesAddUp(index: Index, lines: seq<Line>, report: map<string, Phase>, totals: Tokens)
    requires DistinctUuids(lines) && TreeOk(Run(index, EventsOf(lines)), report, totals)
    ensures PhaseSum(report) == totals
  {
    hide *;
    var r := Run(index, EventsOf(lines));
    PhasesAddUp(r, report, totals);
    ParsedTurnsLead(lines);
    TurnOwnersAttribute(r);
    NothingLost(r.events, TurnOwners(r), Parks(r));
    OwnShareIs(r, Nobody);
    PlusEmpty(PhaseSum(report));
  }
}
