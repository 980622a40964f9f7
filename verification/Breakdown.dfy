/**
 The summary half of apps/ingest/cost_aggregator.py, and what the finished
 breakdown conserves: every turn's usage in exactly one row, and wall times
 that add up.
 */
module Breakdown {
  import opened Options
  import opened Transcript
  import opened Matching
  import opened Attribution
  import opened Registry
  import opened WallTime
  import opened Cost
  import opened CostAggregator

  datatype SkillRow = SkillRow(skill: string, wall: nat, tokens: Tokens, invocations: seq<Invocation>)
  datatype ThinkRow = ThinkRow(wall: nat, tokens: Tokens)

  /** A phase's skill rows, then its "(orchestration)" row. */
  datatype PhaseRow = PhaseRow(wall: nat, tokens: Tokens, skills: seq<SkillRow>, thinking: Option<ThinkRow>)

  datatype Report = Report(totals: Tokens, wall: nat, orchestration: Option<ThinkRow>, phases: map<string, PhaseRow>)

  // ----- What the rows should hold --------------------------------------------

  /** The frames listed under the keys of a set. */
  ghost function FramesUnder(index: Index, events: seq<CostEvent>, keys: set<Key>): (s: set<Owner>)
    ensures forall o :: o in s <==>
              o.ByFrame? && o.at < |events| && IsDispatch(events[o.at]) && KeyOf(index, events, o.at) in keys
  {
    set i | 0 <= i < |events| && IsDispatch(events[i]) && KeyOf(index, events, i) in keys :: ByFrame(i)
  }

  /** The frames and the orchestrator turns that phase p's row answers for. */
  ghost function PhaseOwners(index: Index, events: seq<CostEvent>, p: string): (s: set<Owner>)
    ensures forall o :: o in s <==>
              (o == ByPhase(p)
               || (o.ByFrame? && o.at < |events| && IsDispatch(events[o.at]) && KeyOf(index, events, o.at).0 == p))
  {
    (set i | 0 <= i < |events| && IsDispatch(events[i]) && KeyOf(index, events, i).0 == p :: ByFrame(i)) + {ByPhase(p)}
  }

  ghost function ShareOf(index: Index, events: seq<CostEvent>, s: set<Owner>): Tokens {
    Share(events, Owners(index, events), |events|, s)
  }

  function Spans(invs: seq<Invocation>): (spans: seq<Interval>)
    ensures |spans| == |invs|
  {
    seq(|invs|, j requires 0 <= j < |invs| => invs[j].Span())
  }

  function RowSpans(rows: seq<SkillRow>): seq<Interval> {
    if rows == [] then [] else RowSpans(rows[..|rows| - 1]) + Spans(rows[|rows| - 1].invocations)
  }

  /** A skill's row holds its own invocations, all of them, and their usage. */
  ghost predicate SkillRowOk(index: Index, events: seq<CostEvent>, phase: string, row: SkillRow) {
    row.tokens == ShareOf(index, events, FramesUnder(index, events, {(phase, row.skill)}))
    && row.wall == RoundSeconds(UnionMeasure(Spans(row.invocations)))
    && ListOk(index, events, |events|, (phase, row.skill), row.invocations, DoneBut(events, 0))
    && forall i | 0 <= i < |events| && IsDispatch(events[i]) && KeyOf(index, events, i) == (phase, row.skill) ::
         HasAt(row.invocations, i)
  }

  ghost predicate HasSkill(rows: seq<SkillRow>, skill: string) {
    exists r :: 0 <= r < |rows| && rows[r].skill == skill
  }

  /** A row for every skill dispatched in the phase, and one only. */
  ghost predicate SkillsOk(index: Index, events: seq<CostEvent>, phase: string, rows: seq<SkillRow>) {
    (forall r | 0 <= r < |rows| :: SkillRowOk(index, events, phase, rows[r]))
    && DistinctSkills(rows)
    && forall i | 0 <= i < |events| && IsDispatch(events[i]) && KeyOf(index, events, i).0 == phase ::
         HasSkill(rows, KeyOf(index, events, i).1)
  }

  ghost predicate DistinctSkills(rows: seq<SkillRow>) {
    forall q, r | 0 <= q < r < |rows| :: rows[q].skill != rows[r].skill
  }

  function SkillSum(rows: seq<SkillRow>): Tokens {
    if rows == [] then EmptyTokens else SkillSum(rows[..|rows| - 1]).Plus(rows[|rows| - 1].tokens)
  }

  /** From the first to the last timed turn of an owner. */
  ghost function TurnSpan(index: Index, events: seq<CostEvent>, o: Owner): Interval {
    Interval(FirstOwned(index, events, |events|, o), LastOwned(index, events, 0, |events|, o))
  }

  /** The spans a phase's wall measures. */
  ghost function PhaseSpans(index: Index, events: seq<CostEvent>, phase: string, row: PhaseRow): seq<Interval> {
    RowSpans(row.skills) + if row.thinking.Some? then [TurnSpan(index, events, ByPhase(phase))] else []
  }

  /** The wall is the union of the phase's spans; the orchestrator's row gets
      what the skills leave of it. */
  ghost predicate WallOk(index: Index, events: seq<CostEvent>, phase: string, row: PhaseRow) {
    row.wall == RoundSeconds(UnionMeasure(PhaseSpans(index, events, phase, row)))
    && row.wall == RoundSeconds(UnionMeasure(RowSpans(row.skills))) + (if row.thinking.Some? then row.thinking.value.wall else 0)
  }

  /** The counters are the phase's usage, and the sum over its rows. */
  ghost predicate TokensOk(index: Index, events: seq<CostEvent>, phase: string, row: PhaseRow) {
    row.tokens == ShareOf(index, events, PhaseOwners(index, events, phase))
    && row.tokens == SkillSum(row.skills).Plus(if row.thinking.Some? then row.thinking.value.tokens else EmptyTokens)
    && (row.thinking.Some? <==> ShareOf(index, events, {ByPhase(phase)}) != EmptyTokens)
    && (row.thinking.Some? ==> row.thinking.value.tokens == ShareOf(index, events, {ByPhase(phase)}))
  }

  /** The whole of a phase's row. */
  ghost predicate PhaseRowOk(index: Index, events: seq<CostEvent>, phase: string, row: PhaseRow) {
    SkillsOk(index, events, phase, row.skills) && TokensOk(index, events, phase, row) && WallOk(index, events, phase, row)
  }

  // ----- One skill's row ---------------------------------------------------------

  ghost function FramesOfList(invs: seq<Invocation>): (s: set<Owner>)
    ensures forall o :: o in s <==> o.ByFrame? && HasAt(invs, o.at)
  {
    if invs == [] then {} else
      var rest, last := FramesOfList(invs[..|invs| - 1]), invs[|invs| - 1];
      assert forall i :: HasAt(invs, i) <==> HasAt(invs[..|invs| - 1], i) || i == last.at by {
        HasAtSnoc(invs[..|invs| - 1], last);
        assert invs == invs[..|invs| - 1] + [last];
      }
      rest + {ByFrame(last.at)}
  }

  lemma HasAtSnoc(invs: seq<Invocation>, inv: Invocation)
    ensures forall i :: HasAt(invs + [inv], i) <==> HasAt(invs, i) || i == inv.at
  {
    var more := invs + [inv];
    forall i ensures HasAt(more, i) <==> HasAt(invs, i) || i == inv.at {
      if HasAt(invs, i) {
        var j :| 0 <= j < |invs| && invs[j].at == i;
        assert more[j] == invs[j];
      }
      assert more[|invs|] == inv;
    }
  }

  method MergeInvocations(ghost index: Index, ghost events: seq<CostEvent>, ghost key: Key, invs: seq<Invocation>)
    returns (merged: Tokens)
    requires ListOk(index, events, |events|, key, invs, DoneBut(events, 0))
    ensures merged == ShareOf(index, events, FramesOfList(invs))
  {
    merged := EmptyTokens;
    ShareOfNone(events, Owners(index, events), |events|, {});
    for j := 0 to |invs|
      invariant merged == ShareOf(index, events, FramesOfList(invs[..j]))
    {
      ShareOfOneMore(index, events, key, invs, j);
      merged := merged.Plus(invs[j].tokens);
    }
    assert invs[..|invs|] == invs;
  }

  lemma ShareOfOneMore(index: Index, events: seq<CostEvent>, key: Key, invs: seq<Invocation>, j: nat)
    requires j < |invs| && ListOk(index, events, |events|, key, invs, DoneBut(events, 0))
    ensures ShareOf(index, events, FramesOfList(invs[..j + 1])) ==
            ShareOf(index, events, FramesOfList(invs[..j])).Plus(invs[j].tokens)
  {
    var before, x := FramesOfList(invs[..j]), ByFrame(invs[j].at);
    assert invs[..j + 1][..j] == invs[..j];
    assert FramesOfList(invs[..j + 1]) == before + {x};
    assert InvocationOk(index, events, |events|, key, invs[j]);
    hide Share, InvocationOk, Owners, FramesOfList;
    ShareUnion(events, Owners(index, events), |events|, before, {x});
  }

  /** The list of a key holds exactly the key's dispatches. */
  lemma ListIsKey(index: Index, events: seq<CostEvent>, closed: map<Key, seq<Invocation>>, key: Key)
    requires ClosedOk(index, events, |events|, closed, DoneBut(events, 0)) && key in closed
    ensures FramesOfList(closed[key]) == FramesUnder(index, events, {key})
    ensures forall i | 0 <= i < |events| && IsDispatch(events[i]) && KeyOf(index, events, i) == key :: HasAt(closed[key], i)
  {
    var invs := closed[key];
    assert ListOk(index, events, |events|, key, invs, DoneBut(events, 0));
    hide ClosedOk, KeyOf, OpenAt;
    forall i: nat ensures HasAt(invs, i) <==> i < |events| && IsDispatch(events[i]) && KeyOf(index, events, i) == key {
      if HasAt(invs, i) {
        var j :| 0 <= j < |invs| && invs[j].at == i;
        assert InvocationOk(index, events, |events|, key, invs[j]);
      } else if i < |events| && IsDispatch(events[i]) && KeyOf(index, events, i) == key {
        assert i in DoneBut(events, 0);
        ListedIs(index, events, closed, i);
      }
    }
    forall o ensures o in FramesOfList(invs) <==> o in FramesUnder(index, events, {key}) {
    }
  }

  lemma ListedIs(index: Index, events: seq<CostEvent>, closed: map<Key, seq<Invocation>>, i: nat)
    requires ClosedOk(index, events, |events|, closed, DoneBut(events, 0)) && i in DoneBut(events, 0)
    ensures KeyOf(index, events, i) in closed && HasAt(closed[KeyOf(index, events, i)], i)
  {
    hide DoneBut, ListOk, HasAt, KeyOf;
    assert IsListed(index, events, closed, i);
  }

  method BuildSkillRow(ghost index: Index, ghost events: seq<CostEvent>, closed: map<Key, seq<Invocation>>, key: Key)
    returns (row: SkillRow)
    requires ClosedOk(index, events, |events|, closed, DoneBut(events, 0)) && key in closed
    ensures row.skill == key.1 && SkillRowOk(index, events, key.0, row)
  {
    var invs := closed[key];
    assert ListOk(index, events, |events|, key, invs, DoneBut(events, 0));
    ListIsKey(index, events, closed, key);
    hide ClosedOk, ListOk, FramesUnder, FramesOfList, KeyOf, ShareOf;
    var tokens := MergeInvocations(index, events, key, invs);
    var wall := UnionSeconds(Spans(invs));
    row := SkillRow(key.1, wall, tokens, invs);
    assert key == (key.0, key.1);
  }

  // ----- Rows grouped by phase -------------------------------------------------------

  ghost function KeysIn(keys: set<Key>, phase: string): set<Key> {
    set key | key in keys && key.0 == phase
  }

  /** The skill rows of a phase so far, and the sum of their tokens. */
  datatype Group = Group(rows: seq<SkillRow>, tokens: Tokens) {
    function With(row: SkillRow): Group {
      Group(rows + [row], tokens.Plus(row.tokens))
    }
  }

  function GroupOf(groups: map<string, Group>, phase: string): Group {
    if phase in groups then groups[phase] else Group([], EmptyTokens)
  }

  ghost predicate PhaseGroupOk(index: Index, events: seq<CostEvent>, done: set<Key>, phase: string, group: Group) {
    group.tokens == ShareOf(index, events, FramesUnder(index, events, KeysIn(done, phase)))
    && group.tokens == SkillSum(group.rows)
    && RowsOk(index, events, done, phase, group.rows)
  }

  /** One row for each key done. */
  ghost predicate RowsOk(index: Index, events: seq<CostEvent>, done: set<Key>, phase: string, rows: seq<SkillRow>) {
    (forall r | 0 <= r < |rows| :: SkillRowOk(index, events, phase, rows[r]) && (phase, rows[r].skill) in done)
    && DistinctSkills(rows)
    && forall key | key in done && key.0 == phase :: HasSkill(rows, key.1)
  }

  /** The rows built from the keys done so far. */
  ghost predicate GroupsOk(index: Index, events: seq<CostEvent>, done: set<Key>, groups: map<string, Group>) {
    (forall p :: PhaseGroupOk(index, events, done, p, GroupOf(groups, p)))
    && (forall key | key in done :: key.0 in groups)
    && (forall p | p in groups :: groups[p].rows != [])
  }

  method GroupByPhase(ghost index: Index, ghost events: seq<CostEvent>, closed: map<Key, seq<Invocation>>)
    returns (groups: map<string, Group>)
    requires ClosedOk(index, events, |events|, closed, DoneBut(events, 0))
    ensures GroupsOk(index, events, closed.Keys, groups)
  {
    groups := map[];
    NoGroups(index, events);
    hide ClosedOk, SkillRowOk, ShareOf, PhaseGroupOk, GroupsOk;
    var todo := closed.Keys;
    assert closed.Keys - todo == {};
    while todo != {}
      invariant todo <= closed.Keys
      invariant GroupsOk(index, events, closed.Keys - todo, groups)
    {
      var key :| key in todo;
      var row := BuildSkillRow(index, events, closed, key);
      PhaseGroupGrows(index, events, closed.Keys - todo, groups, key, row);
      groups := groups[key.0 := GroupOf(groups, key.0).With(row)];
      assert closed.Keys - (todo - {key}) == closed.Keys - todo + {key};
      todo := todo - {key};
    }
    assert closed.Keys - todo == closed.Keys;
  }

  lemma NoGroups(index: Index, events: seq<CostEvent>)
    ensures GroupsOk(index, events, {}, map[])
  {
    forall p ensures PhaseGroupOk(index, events, {}, p, GroupOf(map[], p)) {
      ShareOfNone(events, Owners(index, events), |events|, FramesUnder(index, events, KeysIn({}, p)));
    }
  }

  lemma PhaseGroupGrows(index: Index, events: seq<CostEvent>, done: set<Key>, groups: map<string, Group>, key: Key, row: SkillRow)
    requires GroupsOk(index, events, done, groups) && key !in done
    requires row.skill == key.1 && SkillRowOk(index, events, key.0, row)
    ensures GroupsOk(index, events, done + {key}, groups[key.0 := GroupOf(groups, key.0).With(row)])
  {
    hide PhaseGroupOk, SkillRowOk;
    var grown := groups[key.0 := GroupOf(groups, key.0).With(row)];
    forall p ensures PhaseGroupOk(index, events, done + {key}, p, GroupOf(grown, p)) {
      if p == key.0 {
        GrownGroup(index, events, done, key, GroupOf(groups, p), row);
      } else {
        OtherGroup(index, events, done, key, p, GroupOf(groups, p));
      }
    }
  }

  lemma OtherGroup(index: Index, events: seq<CostEvent>, done: set<Key>, key: Key, phase: string, group: Group)
    requires PhaseGroupOk(index, events, done, phase, group) && key.0 != phase
    ensures PhaseGroupOk(index, events, done + {key}, phase, group)
  {
    hide SkillRowOk, HasSkill, DistinctSkills, SkillSum, ShareOf;
    assert KeysIn(done + {key}, phase) == KeysIn(done, phase);
  }

  lemma GrownGroup(index: Index, events: seq<CostEvent>, done: set<Key>, key: Key, group: Group, row: SkillRow)
    requires key !in done && PhaseGroupOk(index, events, done, key.0, group)
    requires row.skill == key.1 && SkillRowOk(index, events, key.0, row)
    ensures PhaseGroupOk(index, events, done + {key}, key.0, group.With(row))
  {
    hide SkillRowOk, ShareOf, FramesUnder, KeysIn, RowsOk;
    var more := group.rows + [row];
    assert more[..|more| - 1] == group.rows;
    RowAdded(index, events, done, key, group.rows, row);
    RowShare(index, events, key, row);
    KeysInAlso(done, key);
    KeyAdds(index, events, KeysIn(done, key.0), key);
  }

  lemma RowAdded(index: Index, events: seq<CostEvent>, done: set<Key>, key: Key, rows: seq<SkillRow>, row: SkillRow)
    requires key !in done && RowsOk(index, events, done, key.0, rows)
    requires row.skill == key.1 && SkillRowOk(index, events, key.0, row)
    ensures RowsOk(index, events, done + {key}, key.0, rows + [row])
  {
    hide SkillRowOk;
    var more := rows + [row];
    assert key == (key.0, row.skill);
    forall other | other in done + {key} && other.0 == key.0 ensures HasSkill(more, other.1) {
      if other in done {
        var r :| 0 <= r < |rows| && rows[r].skill == other.1;
        assert more[r].skill == other.1;
      } else {
        assert more[|rows|].skill == other.1;
      }
    }
  }

  lemma RowShare(index: Index, events: seq<CostEvent>, key: Key, row: SkillRow)
    requires row.skill == key.1 && SkillRowOk(index, events, key.0, row)
    ensures row.tokens == ShareOf(index, events, FramesUnder(index, events, {key}))
  {
    hide ShareOf, FramesUnder;
    assert (key.0, row.skill) == key;
  }

  lemma KeysInAlso(done: set<Key>, key: Key)
    requires key !in done
    ensures KeysIn(done + {key}, key.0) == KeysIn(done, key.0) + {key} && key !in KeysIn(done, key.0)
  {
  }

  lemma KeyAdds(index: Index, events: seq<CostEvent>, keys: set<Key>, key: Key)
    requires key !in keys
    ensures ShareOf(index, events, FramesUnder(index, events, keys + {key})) ==
            ShareOf(index, events, FramesUnder(index, events, keys))
              .Plus(ShareOf(index, events, FramesUnder(index, events, {key})))
  {
    hide KeyOf, Owners, Share;
    var a, b := FramesUnder(index, events, keys), FramesUnder(index, events, {key});
    assert FramesUnder(index, events, keys + {key}) == a + b;
    ShareUnion(events, Owners(index, events), |events|, a, b);
  }

  // ----- One phase's row ----------------------------------------------------------------

  method GatherSpans(rows: seq<SkillRow>) returns (spans: seq<Interval>)
    ensures spans == RowSpans(rows)
  {
    spans := [];
    assert rows[..0] == [];
    for r := 0 to |rows|
      invariant spans == RowSpans(rows[..r])
    {
      assert rows[..r + 1][..r] == rows[..r];
      spans := spans + Spans(rows[r].invocations);
    }
    assert rows[..|rows|] == rows;
  }

  /** A phase's wall is the union of its spans; the orchestrator's row gets
      what the skills leave of it. */
  method BuildPhaseRow(ghost index: Index, ghost events: seq<CostEvent>, ghost closed: map<Key, seq<Invocation>>,
                       phase: string, skills: seq<SkillRow>, tokens: Tokens, orch: Option<Orchestration>)
    returns (row: PhaseRow)
    requires SkillsOk(index, events, phase, skills) && tokens == SkillSum(skills)
    requires tokens == ShareOf(index, events, FramesUnder(index, events, KeysIn(closed.Keys, phase)))
    requires ClosedOk(index, events, |events|, closed, DoneBut(events, 0))
    requires orch.Some? ==> OrchestrationOk(index, events, |events|, orch.value, ByPhase(phase)) && orch.value.tokens != EmptyTokens
    requires orch.None? ==> ShareOf(index, events, {ByPhase(phase)}) == EmptyTokens
    ensures PhaseRowOk(index, events, phase, row)
    ensures row.skills == skills
  {
    hide SkillsOk, ClosedOk, FramesUnder, KeysIn, PhaseOwners, UnionMeasure, RowSpans, TurnSpan, SkillSum;
    PhaseShare(index, events, closed, phase);
    hide ShareOf, OrchestrationOk;
    var spans := GatherSpans(skills);
    var covered := UnionSeconds(spans);
    match orch
    case None =>
      PlusEmpty(tokens);
      assert spans + [] == spans;
      row := PhaseRow(covered, tokens, skills, None);
    case Some(o) =>
      var wall := UnionSeconds(spans + [o.Span()]);
      UnionMonotone(spans, spans + [o.Span()]);
      OrchestrationIs(index, events, o, ByPhase(phase));
      row := PhaseRow(wall, tokens.Plus(o.tokens), skills,
                      Some(ThinkRow(if wall > covered then wall - covered else 0, o.tokens)));
  }

  lemma OrchestrationIs(index: Index, events: seq<CostEvent>, orch: Orchestration, owner: Owner)
    requires OrchestrationOk(index, events, |events|, orch, owner)
    ensures orch.tokens == ShareOf(index, events, {owner}) && orch.Span() == TurnSpan(index, events, owner)
  {
    hide Share, Owners, FirstOwned, LastOwned;
  }

  lemma PhaseShare(index: Index, events: seq<CostEvent>, closed: map<Key, seq<Invocation>>, phase: string)
    requires ClosedOk(index, events, |events|, closed, DoneBut(events, 0))
    ensures ShareOf(index, events, PhaseOwners(index, events, phase)) ==
            ShareOf(index, events, FramesUnder(index, events, KeysIn(closed.Keys, phase)))
              .Plus(ShareOf(index, events, {ByPhase(phase)}))
  {
    hide KeyOf, Owners, Share, ClosedOk;
    var frames := FramesUnder(index, events, KeysIn(closed.Keys, phase));
    forall o ensures o in PhaseOwners(index, events, phase) <==> o in frames + {ByPhase(phase)} {
      if o.ByFrame? && o.at < |events| && IsDispatch(events[o.at]) {
        assert o.at in DoneBut(events, 0);
        ListedIs(index, events, closed, o.at);
      }
    }
    assert PhaseOwners(index, events, phase) == frames + {ByPhase(phase)};
    ShareUnion(events, Owners(index, events), |events|, frames, {ByPhase(phase)});
  }

  // ----- Walls stay within the session -----------------------------------------------

  ghost predicate SpansSeen(events: seq<CostEvent>, spans: seq<Interval>) {
    forall iv :: iv in spans ==> Seen(events, |events|, iv.start) && Seen(events, |events|, iv.end)
  }

  lemma WithinSession(events: seq<CostEvent>, spans: seq<Interval>, first: Option<int>, last: Option<int>)
    requires Clock(events, |events|, first, last) && SpansSeen(events, spans)
    ensures RoundSeconds(UnionMeasure(spans)) <= WallTimeSeconds(first, last)
  {
    hide UnionMeasure, RoundSeconds, Seen, Clock, SpansSeen;
    if i :| 0 <= i < |spans| && spans[i].Valid() {
      SpansInside(events, spans, first, last);
      UnionWithin(spans, first.value, last.value);
      RoundMonotone(UnionMeasure(spans), last.value - first.value);
    } else {
      NothingCovered(spans);
    }
  }

  lemma SpansInside(events: seq<CostEvent>, spans: seq<Interval>, first: Option<int>, last: Option<int>)
    requires Clock(events, |events|, first, last) && SpansSeen(events, spans)
    ensures forall i | 0 <= i < |spans| && spans[i].Valid() ::
              first.Some? && last.Some? && first.value <= spans[i].start.value && spans[i].end.value <= last.value
  {
    forall i | 0 <= i < |spans| && spans[i].Valid()
      ensures first.Some? && last.Some?
      ensures first.value <= spans[i].start.value && spans[i].end.value <= last.value
    {
      assert spans[i] in spans;
    }
  }

  lemma NothingCovered(spans: seq<Interval>)
    requires forall i | 0 <= i < |spans| :: !spans[i].Valid()
    ensures UnionMeasure(spans) == 0 && RoundSeconds(0) == 0
  {
    assert Covered(spans) == {};
  }

  lemma {:induction false} RowSpansSeen(index: Index, events: seq<CostEvent>, phase: string, rows: seq<SkillRow>)
    requires forall r | 0 <= r < |rows| :: SkillRowOk(index, events, phase, rows[r])
    ensures SpansSeen(events, RowSpans(rows))
  {
    if rows != [] {
      var init, last := rows[..|rows| - 1], rows[|rows| - 1];
      RowSpansSeen(index, events, phase, init);
      ListSeen(index, events, phase, last);
      hide SkillRowOk, Seen;
      assert RowSpans(rows) == RowSpans(init) + Spans(last.invocations);
    }
  }

  lemma ListSeen(index: Index, events: seq<CostEvent>, phase: string, row: SkillRow)
    requires SkillRowOk(index, events, phase, row)
    ensures SpansSeen(events, Spans(row.invocations))
  {
    var invs := row.invocations;
    hide ListOk, Seen;
    forall iv | iv in Spans(invs) ensures Seen(events, |events|, iv.start) && Seen(events, |events|, iv.end) {
      var j :| 0 <= j < |invs| && invs[j].Span() == iv;
      InvocationSeen(index, events, (phase, row.skill), invs, j);
    }
  }

  lemma InvocationSeen(index: Index, events: seq<CostEvent>, key: Key, invs: seq<Invocation>, j: nat)
    requires ListOk(index, events, |events|, key, invs, DoneBut(events, 0)) && j < |invs|
    ensures Seen(events, |events|, invs[j].start) && Seen(events, |events|, invs[j].last)
    ensures invs[j].at < |events| && IsDispatch(events[invs[j].at])
    ensures invs[j].Span() == Interval(events[invs[j].at].ts, EndOf(index, events, invs[j].at))
    ensures KeyOf(index, events, invs[j].at) == key
  {
    assert InvocationOk(index, events, |events|, key, invs[j]);
  }

  // ----- Every skill span of the session ---------------------------------------------

  ghost predicate IsSkillSpan(index: Index, events: seq<CostEvent>, iv: Interval) {
    exists i :: 0 <= i < |events| && IsDispatch(events[i]) && iv == Interval(events[i].ts, EndOf(index, events, i))
  }

  method GatherAllSpans(ghost index: Index, ghost events: seq<CostEvent>, closed: map<Key, seq<Invocation>>)
    returns (spans: seq<Interval>)
    requires ClosedOk(index, events, |events|, closed, DoneBut(events, 0))
    ensures forall iv :: iv in spans <==> IsSkillSpan(index, events, iv)
    ensures SpansSeen(events, spans)
  {
    spans := [];
    var todo := closed.Keys;
    while todo != {}
      invariant todo <= closed.Keys
      invariant forall iv :: iv in spans ==> IsSkillSpan(index, events, iv)
      invariant forall key, iv | key in closed && key !in todo && iv in Spans(closed[key]) :: iv in spans
      invariant SpansSeen(events, spans)
    {
      hide ListOk, EndOf, Seen;
      var key :| key in todo;
      KeySpans(index, events, closed, key);
      spans := spans + Spans(closed[key]);
      todo := todo - {key};
    }
    forall iv | IsSkillSpan(index, events, iv) ensures iv in spans {
      AllSpansListed(index, events, closed, iv);
    }
  }

  lemma KeySpans(index: Index, events: seq<CostEvent>, closed: map<Key, seq<Invocation>>, key: Key)
    requires ClosedOk(index, events, |events|, closed, DoneBut(events, 0)) && key in closed
    ensures forall iv | iv in Spans(closed[key]) :: IsSkillSpan(index, events, iv)
    ensures SpansSeen(events, Spans(closed[key]))
  {
    var invs := closed[key];
    assert ListOk(index, events, |events|, key, invs, DoneBut(events, 0));
    hide ClosedOk, ListOk, EndOf, Seen;
    forall iv | iv in Spans(invs)
      ensures IsSkillSpan(index, events, iv) && Seen(events, |events|, iv.start) && Seen(events, |events|, iv.end)
    {
      var j :| 0 <= j < |invs| && invs[j].Span() == iv;
      InvocationSeen(index, events, key, invs, j);
    }
  }

  lemma AllSpansListed(index: Index, events: seq<CostEvent>, closed: map<Key, seq<Invocation>>, iv: Interval)
    requires ClosedOk(index, events, |events|, closed, DoneBut(events, 0)) && IsSkillSpan(index, events, iv)
    ensures exists key :: key in closed && iv in Spans(closed[key])
  {
    hide KeyOf, EndOf, ListOk;
    var i: nat :| i < |events| && IsDispatch(events[i]) && iv == Interval(events[i].ts, EndOf(index, events, i));
    assert i in DoneBut(events, 0);
    ListedIs(index, events, closed, i);
    var key := KeyOf(index, events, i);
    var invs := closed[key];
    var j :| 0 <= j < |invs| && invs[j].at == i;
    assert ListOk(index, events, |events|, key, invs, DoneBut(events, 0));
    InvocationSeen(index, events, key, invs, j);
    assert Spans(invs)[j] == iv;
  }

  // ----- The report ---------------------------------------------------------------------

  /** Global orchestration: what its span adds to the union of all skill spans. */
  ghost predicate OrchestrationRowOk(index: Index, events: seq<CostEvent>, row: ThinkRow) {
    row.tokens == ShareOf(index, events, {ByOrchestration})
    && forall all: seq<Interval> | (forall iv :: iv in all <==> IsSkillSpan(index, events, iv)) ::
         row.wall + RoundSeconds(UnionMeasure(all)) == RoundSeconds(UnionMeasure(all + [TurnSpan(index, events, ByOrchestration)]))
  }

  /** A phase has a row if a skill was dispatched in it or the orchestrator used tokens in it. */
  ghost predicate InUse(index: Index, events: seq<CostEvent>, phase: string) {
    (exists i :: 0 <= i < |events| && IsDispatch(events[i]) && KeyOf(index, events, i).0 == phase)
    || ShareOf(index, events, {ByPhase(phase)}) != EmptyTokens
  }

  ghost predicate PhasesReported(index: Index, events: seq<CostEvent>, phases: map<string, PhaseRow>, wall: nat) {
    (forall p | p in phases :: PhaseRowOk(index, events, p, phases[p]) && phases[p].wall <= wall)
    && (forall p :: p in phases <==> InUse(index, events, p))
    && (forall p | p !in phases :: ShareOf(index, events, PhaseOwners(index, events, p)) == EmptyTokens)
    && (forall i | 0 <= i < |events| && IsDispatch(events[i]) :: KeyOf(index, events, i).0 in phases)
  }

  ghost predicate BreakdownOk(index: Index, events: seq<CostEvent>, r: Report) {
    r.totals == Total(events, |events|)
    && (forall first, last | Clock(events, |events|, first, last) :: r.wall == WallTimeSeconds(first, last))
    && (r.orchestration.Some? <==> ShareOf(index, events, {ByOrchestration}) != EmptyTokens)
    && (r.orchestration.Some? ==>
          OrchestrationRowOk(index, events, r.orchestration.value) && r.orchestration.value.wall <= r.wall)
    && PhasesReported(index, events, r.phases, r.wall)
  }

  method BuildOrchestrationRow(ghost index: Index, ghost events: seq<CostEvent>, orch: Orchestration, all: seq<Interval>)
    returns (row: ThinkRow)
    requires OrchestrationOk(index, events, |events|, orch, ByOrchestration)
    requires forall iv :: iv in all <==> IsSkillSpan(index, events, iv)
    requires SpansSeen(events, all)
    ensures OrchestrationRowOk(index, events, row)
    ensures forall first, last | Clock(events, |events|, first, last) :: row.wall <= WallTimeSeconds(first, last)
  {
    hide IsSkillSpan, Share, Owners, FirstOwned, LastOwned, UnionMeasure, OrchestrationRowOk, Clock, SpansSeen;
    var span := orch.Span();
    var wide := UnionSeconds([span] + all);
    var covered := UnionSeconds(all);
    UnionOrderIndependent([span] + all, all + [span]);
    UnionMonotone(all, all + [span]);
    row := ThinkRow(if wide > covered then wide - covered else 0, orch.tokens);
    ResidualOk(index, events, all, row);
    ResidualWithin(index, events, all);
  }

  lemma ResidualOk(index: Index, events: seq<CostEvent>, all: seq<Interval>, row: ThinkRow)
    requires forall iv :: iv in all <==> IsSkillSpan(index, events, iv)
    requires row.tokens == ShareOf(index, events, {ByOrchestration})
    requires row.wall + RoundSeconds(UnionMeasure(all)) == RoundSeconds(UnionMeasure(all + [TurnSpan(index, events, ByOrchestration)]))
    ensures OrchestrationRowOk(index, events, row)
  {
    hide IsSkillSpan, ShareOf, TurnSpan;
    var span := TurnSpan(index, events, ByOrchestration);
    forall other: seq<Interval> | forall iv :: iv in other <==> IsSkillSpan(index, events, iv)
      ensures UnionMeasure(other) == UnionMeasure(all)
      ensures UnionMeasure(other + [span]) == UnionMeasure(all + [span])
    {
      UnionOrderIndependent(other, all);
      UnionOrderIndependent(other + [span], all + [span]);
    }
  }

  lemma ResidualWithin(index: Index, events: seq<CostEvent>, all: seq<Interval>)
    requires SpansSeen(events, all)
    ensures forall first, last | Clock(events, |events|, first, last) ::
              RoundSeconds(UnionMeasure(all + [TurnSpan(index, events, ByOrchestration)])) <= WallTimeSeconds(first, last)
  {
    assert SpansSeen(events, all + [TurnSpan(index, events, ByOrchestration)]);
    forall first, last | Clock(events, |events|, first, last)
      ensures RoundSeconds(UnionMeasure(all + [TurnSpan(index, events, ByOrchestration)])) <= WallTimeSeconds(first, last)
    {
      WithinSession(events, all + [TurnSpan(index, events, ByOrchestration)], first, last);
    }
  }

  // ----- aggregate -----------------------------------------------------------------------

  method BuildPhases(ghost index: Index, ghost events: seq<CostEvent>, closed: map<Key, seq<Invocation>>,
                     phaseOrch: map<string, Orchestration>)
    returns (phases: map<string, PhaseRow>)
    requires ClosedOk(index, events, |events|, closed, DoneBut(events, 0))
    requires PhasesOk(index, events, |events|, phaseOrch)
    ensures forall first, last | Clock(events, |events|, first, last) ::
              PhasesReported(index, events, phases, WallTimeSeconds(first, last))
  {
    hide ClosedOk, PhasesOk, GroupsOk, PhaseRowOk, Clock;
    var groups := GroupByPhase(index, events, closed);
    var thinking := set p | p in phaseOrch && phaseOrch[p].tokens != EmptyTokens;
    phases := map[];
    var todo := groups.Keys + thinking;
    while todo != {}
      invariant todo <= groups.Keys + thinking
      invariant phases.Keys == groups.Keys + thinking - todo
      invariant forall p | p in phases :: PhaseRowOk(index, events, p, phases[p]) && FitsSession(events, phases[p])
    {
      var p :| p in todo;
      var row := BuildPhase(index, events, closed, groups, phaseOrch, p);
      phases := phases[p := row];
      todo := todo - {p};
    }
    PhasesComplete(index, events, closed, groups, phaseOrch, thinking);
    forall first, last | Clock(events, |events|, first, last)
      ensures PhasesReported(index, events, phases, WallTimeSeconds(first, last))
    {
    }
  }

  ghost predicate FitsSession(events: seq<CostEvent>, row: PhaseRow) {
    forall first, last | Clock(events, |events|, first, last) :: row.wall <= WallTimeSeconds(first, last)
  }

  method BuildPhase(ghost index: Index, ghost events: seq<CostEvent>, ghost closed: map<Key, seq<Invocation>>,
                    groups: map<string, Group>, phaseOrch: map<string, Orchestration>, p: string)
    returns (row: PhaseRow)
    requires ClosedOk(index, events, |events|, closed, DoneBut(events, 0))
    requires PhasesOk(index, events, |events|, phaseOrch) && GroupsOk(index, events, closed.Keys, groups)
    ensures PhaseRowOk(index, events, p, row) && FitsSession(events, row)
  {
    var group := GroupOf(groups, p);
    assert PhaseGroupOk(index, events, closed.Keys, p, group);
    ThinkingOf(index, events, phaseOrch, p);
    GroupComplete(index, events, closed, p, group);
    hide GroupsOk, PhasesOk, ClosedOk, SkillsOk, OrchestrationOk, PhaseRowOk, Clock, SpansSeen, ShareOf, RowsOk;
    var orch := if p in phaseOrch && phaseOrch[p].tokens != EmptyTokens then Some(phaseOrch[p]) else None;
    row := BuildPhaseRow(index, events, closed, p, group.rows, group.tokens, orch);
    RowFits(index, events, p, row);
  }

  lemma GroupComplete(index: Index, events: seq<CostEvent>, closed: map<Key, seq<Invocation>>, phase: string, group: Group)
    requires ClosedOk(index, events, |events|, closed, DoneBut(events, 0)) && RowsOk(index, events, closed.Keys, phase, group.rows)
    ensures SkillsOk(index, events, phase, group.rows)
  {
    hide ClosedOk, SkillRowOk, HasSkill, DistinctSkills, KeyOf;
    forall i: nat | i < |events| && IsDispatch(events[i]) && KeyOf(index, events, i).0 == phase
      ensures HasSkill(group.rows, KeyOf(index, events, i).1)
    {
      assert i in DoneBut(events, 0);
      ListedIs(index, events, closed, i);
    }
  }

  /** A phase's wall is within the session's. */
  lemma RowFits(index: Index, events: seq<CostEvent>, phase: string, row: PhaseRow)
    requires PhaseRowOk(index, events, phase, row)
    ensures FitsSession(events, row)
  {
    hide SkillRowOk, Clock, SpansSeen, TokensOk, UnionMeasure;
    RowSpansSeen(index, events, phase, row.skills);
    SpansAlsoSeen(index, events, phase, row);
    forall first, last | Clock(events, |events|, first, last) ensures row.wall <= WallTimeSeconds(first, last) {
      WithinSession(events, PhaseSpans(index, events, phase, row), first, last);
    }
  }

  lemma ThinkingOf(index: Index, events: seq<CostEvent>, phaseOrch: map<string, Orchestration>, p: string)
    requires PhasesOk(index, events, |events|, phaseOrch)
    ensures p in phaseOrch ==> OrchestrationOk(index, events, |events|, phaseOrch[p], ByPhase(p))
    ensures p in phaseOrch ==> phaseOrch[p].tokens == ShareOf(index, events, {ByPhase(p)})
    ensures p !in phaseOrch || phaseOrch[p].tokens == EmptyTokens ==> ShareOf(index, events, {ByPhase(p)}) == EmptyTokens
  {
    assert OrchestrationOk(index, events, |events|, if p in phaseOrch then phaseOrch[p] else NoOrchestration, ByPhase(p));
  }

  lemma SpansAlsoSeen(index: Index, events: seq<CostEvent>, phase: string, row: PhaseRow)
    requires SpansSeen(events, RowSpans(row.skills))
    ensures SpansSeen(events, PhaseSpans(index, events, phase, row))
  {
    hide Seen, RowSpans;
  }

  /** Phases without a row have no usage, and every dispatch has one. */
  lemma PhasesComplete(index: Index, events: seq<CostEvent>, closed: map<Key, seq<Invocation>>, groups: map<string, Group>,
                       phaseOrch: map<string, Orchestration>, thinking: set<string>)
    requires ClosedOk(index, events, |events|, closed, DoneBut(events, 0))
    requires PhasesOk(index, events, |events|, phaseOrch) && GroupsOk(index, events, closed.Keys, groups)
    requires thinking == set p | p in phaseOrch && phaseOrch[p].tokens != EmptyTokens
    ensures forall p | p !in groups.Keys + thinking :: ShareOf(index, events, PhaseOwners(index, events, p)) == EmptyTokens
    ensures forall p :: p in groups.Keys + thinking <==> InUse(index, events, p)
    ensures forall i | 0 <= i < |events| && IsDispatch(events[i]) :: KeyOf(index, events, i).0 in groups
  {
    forall i: nat | i < |events| && IsDispatch(events[i]) ensures KeyOf(index, events, i).0 in groups {
      hide KeyOf, ClosedOk, PhaseGroupOk;
      assert i in DoneBut(events, 0);
      ListedIs(index, events, closed, i);
    }
    forall p | p !in groups.Keys + thinking ensures ShareOf(index, events, PhaseOwners(index, events, p)) == EmptyTokens {
      PhaseUnused(index, events, closed, groups, phaseOrch, p);
    }
    forall p ensures p in groups.Keys + thinking <==> InUse(index, events, p) {
      hide GroupsOk, PhasesOk, ClosedOk, KeyOf, ShareOf;
      ThinkingOf(index, events, phaseOrch, p);
      if p in groups {
        GroupInUse(index, events, closed.Keys, groups, p);
      }
    }
  }

  lemma GroupInUse(index: Index, events: seq<CostEvent>, keys: set<Key>, groups: map<string, Group>, p: string)
    requires GroupsOk(index, events, keys, groups) && p in groups
    ensures InUse(index, events, p)
  {
    hide KeyOf, ShareOf;
    assert PhaseGroupOk(index, events, keys, p, GroupOf(groups, p));
    var row := groups[p].rows[0];
    assert SkillRowOk(index, events, p, row);
    InvocationSeen(index, events, (p, row.skill), row.invocations, 0);
    assert KeyOf(index, events, row.invocations[0].at).0 == p;
  }

  lemma PhaseUnused(index: Index, events: seq<CostEvent>, closed: map<Key, seq<Invocation>>, groups: map<string, Group>,
                    phaseOrch: map<string, Orchestration>, p: string)
    requires ClosedOk(index, events, |events|, closed, DoneBut(events, 0))
    requires PhasesOk(index, events, |events|, phaseOrch) && GroupsOk(index, events, closed.Keys, groups)
    requires p !in groups && (p !in phaseOrch || phaseOrch[p].tokens == EmptyTokens)
    ensures ShareOf(index, events, PhaseOwners(index, events, p)) == EmptyTokens
  {
    hide *;
    ThinkingOf(index, events, phaseOrch, p);
    PhaseShare(index, events, closed, p);
    UngroupedShare(index, events, closed.Keys, groups, p);
    PlusEmpty(EmptyTokens);
  }

  lemma UngroupedShare(index: Index, events: seq<CostEvent>, keys: set<Key>, groups: map<string, Group>, p: string)
    requires GroupsOk(index, events, keys, groups) && p !in groups
    ensures ShareOf(index, events, FramesUnder(index, events, KeysIn(keys, p))) == EmptyTokens
  {
    hide ShareOf, FramesUnder, KeysIn, SkillRowOk;
    assert PhaseGroupOk(index, events, keys, p, GroupOf(groups, p));
  }

  method Aggregate(index: Index, events: seq<CostEvent>) returns (report: Report)
    ensures BreakdownOk(index, events, report)
  {
    var dispatchUuids := DispatchUuids(events);
    var parents := IndexParents(events);
    var agg := new Aggregator(index);
    for k := 0 to |events|
      invariant agg.index == index && agg.Accounts(events, k) && Clock(events, k, agg.firstTs, agg.lastTs)
    {
      hide Aggregator.Accounts, Clock;
      agg.Step(events, k, events[k], dispatchUuids, parents);
    }
    hide ClosedOk, PhasesOk, OpenOk, PendingOk, PhasesReported, SpansSeen;
    agg.Finish(events);
    report := Summarise(index, events, agg.closed, agg.phaseOrch, agg.orch, agg.totals, agg.firstTs, agg.lastTs);
  }

  method IndexParents(events: seq<CostEvent>) returns (parents: map<string, string>)
    ensures parents == Parents(events, |events|)
  {
    parents := map[];
    for k := 0 to |events|
      invariant parents == Parents(events, k)
    {
      if Truthy(events[k].uuid) {
        parents := parents[events[k].uuid.value := GetOr(events[k].parent, "")];
      }
    }
  }

  method Summarise(ghost index: Index, ghost events: seq<CostEvent>, closed: map<Key, seq<Invocation>>,
                   phaseOrch: map<string, Orchestration>, orch: Orchestration, totals: Tokens,
                   first: Option<int>, last: Option<int>)
    returns (report: Report)
    requires ClosedOk(index, events, |events|, closed, DoneBut(events, 0))
    requires PhasesOk(index, events, |events|, phaseOrch)
    requires OrchestrationOk(index, events, |events|, orch, ByOrchestration)
    requires totals == Total(events, |events|) && Clock(events, |events|, first, last)
    ensures BreakdownOk(index, events, report)
  {
    assert ShareOf(index, events, {ByOrchestration}) == orch.tokens;
    ClockUnique(events, first, last);
    hide ClosedOk, PhasesOk, OrchestrationOk, PhasesReported, SpansSeen, Clock, ShareOf, OrchestrationRowOk;
    var phases := BuildPhases(index, events, closed, phaseOrch);
    var all := GatherAllSpans(index, events, closed);
    var row := BuildOrchestrationRow(index, events, orch, all);
    report := Report(totals, WallTimeSeconds(first, last), if orch.tokens != EmptyTokens then Some(row) else None, phases);
  }

  lemma ClockUnique(events: seq<CostEvent>, first: Option<int>, last: Option<int>)
    requires Clock(events, |events|, first, last)
    ensures forall f, l | Clock(events, |events|, f, l) :: f == first && l == last
  {
  }

  // ----- Conservation ----------------------------------------------------------------------

  ghost function SumPhases(phases: map<string, PhaseRow>): Tokens {
    if phases == map[] then EmptyTokens else
      var p :| p in phases;
      phases[p].tokens.Plus(SumPhases(phases - {p}))
  }

  /** All the owners that the rows of a set of phases answer for. */
  ghost function RowOwners(index: Index, events: seq<CostEvent>, names: set<string>): (s: set<Owner>)
    ensures forall o :: o in s <==>
              ((o.ByPhase? && o.phase in names)
               || (o.ByFrame? && o.at < |events| && IsDispatch(events[o.at]) && KeyOf(index, events, o.at).0 in names))
  {
    (set i | 0 <= i < |events| && IsDispatch(events[i]) && KeyOf(index, events, i).0 in names :: ByFrame(i))
    + (set p | p in names :: ByPhase(p))
  }

  lemma {:induction false} SumIsShare(index: Index, events: seq<CostEvent>, phases: map<string, PhaseRow>)
    requires forall p | p in phases :: phases[p].tokens == ShareOf(index, events, PhaseOwners(index, events, p))
    ensures SumPhases(phases) == ShareOf(index, events, RowOwners(index, events, phases.Keys))
    decreases |phases|
  {
    if phases == map[] {
      NoRowsNoShare(index, events);
    } else {
      var p :| p in phases && SumPhases(phases) == phases[p].tokens.Plus(SumPhases(phases - {p}));
      SumIsShare(index, events, phases - {p});
      RowsApart(index, events, phases.Keys, p);
      assert (phases - {p}).Keys == phases.Keys - {p};
    }
  }

  lemma NoRowsNoShare(index: Index, events: seq<CostEvent>)
    ensures ShareOf(index, events, RowOwners(index, events, {})) == EmptyTokens
  {
    ShareOfNone(events, Owners(index, events), |events|, RowOwners(index, events, {}));
  }

  lemma RowsApart(index: Index, events: seq<CostEvent>, names: set<string>, p: string)
    requires p in names
    ensures ShareOf(index, events, RowOwners(index, events, names)) ==
            ShareOf(index, events, PhaseOwners(index, events, p))
              .Plus(ShareOf(index, events, RowOwners(index, events, names - {p})))
  {
    hide KeyOf, Owners, Share;
    var a, b := PhaseOwners(index, events, p), RowOwners(index, events, names - {p});
    assert RowOwners(index, events, names) == a + b;
    ShareUnion(events, Owners(index, events), |events|, a, b);
  }

  /** For every stream: the phases' counters, the global orchestration's and
      those of the turns nobody claimed add up to the totals, counter by counter. */
  lemma NothingCountedTwice(index: Index, events: seq<CostEvent>, r: Report)
    requires BreakdownOk(index, events, r)
    ensures r.totals ==
            SumPhases(r.phases)
              .Plus(if r.orchestration.Some? then r.orchestration.value.tokens else EmptyTokens)
              .Plus(ShareOf(index, events, {Nobody}))
  {
    hide *;
    ReportTokens(index, events, r);
    SumIsShare(index, events, r.phases);
    UnreportedEmpty(index, events, r);
    RowsCoverAll(index, events, r.phases.Keys);
  }

  lemma ReportTokens(index: Index, events: seq<CostEvent>, r: Report)
    requires BreakdownOk(index, events, r)
    ensures r.totals == Total(events, |events|)
    ensures forall p | p in r.phases :: r.phases[p].tokens == ShareOf(index, events, PhaseOwners(index, events, p))
    ensures (if r.orchestration.Some? then r.orchestration.value.tokens else EmptyTokens) ==
            ShareOf(index, events, {ByOrchestration})
  {
    hide ShareOf, PhaseOwners, Clock, SkillRowOk, Total;
  }

  /** An orchestrator turn for a phase without a row spent nothing. */
  lemma UnreportedEmpty(index: Index, events: seq<CostEvent>, r: Report)
    requires BreakdownOk(index, events, r)
    ensures forall t | 0 <= t < |events| && OwnerAt(index, events, t).ByPhase? && OwnerAt(index, events, t).phase !in r.phases ::
              UsageOf(events[t]) == EmptyTokens
    ensures forall i | 0 <= i < |events| && IsDispatch(events[i]) :: KeyOf(index, events, i).0 in r.phases
  {
    hide PhaseRowOk, Clock, OwnerAt, OrchestrationRowOk;
    assert PhasesReported(index, events, r.phases, r.wall);
    forall t | 0 <= t < |events| && OwnerAt(index, events, t).ByPhase? && OwnerAt(index, events, t).phase !in r.phases
      ensures UsageOf(events[t]) == EmptyTokens
    {
      var o := OwnerAt(index, events, t);
      assert o in PhaseOwners(index, events, o.phase);
      OwnedIsCounted(events, Owners(index, events), |events|, t, PhaseOwners(index, events, o.phase));
    }
  }

  lemma RowsCoverAll(index: Index, events: seq<CostEvent>, names: set<string>)
    requires forall t | 0 <= t < |events| && OwnerAt(index, events, t).ByPhase? && OwnerAt(index, events, t).phase !in names ::
               UsageOf(events[t]) == EmptyTokens
    requires forall i | 0 <= i < |events| && IsDispatch(events[i]) :: KeyOf(index, events, i).0 in names
    ensures Total(events, |events|) ==
            ShareOf(index, events, RowOwners(index, events, names))
              .Plus(ShareOf(index, events, {ByOrchestration}))
              .Plus(ShareOf(index, events, {Nobody}))
  {
    var rows, owners := RowOwners(index, events, names), Owners(index, events);
    forall t | 0 <= t < |events| && UsageOf(events[t]) != EmptyTokens
      ensures owners[t] in rows + {ByOrchestration} + {Nobody}
    {
      SpenderCovered(index, events, names, t);
    }
    hide RowOwners, Owners, Share, Total, KeyOf, OwnerAt;
    ShareOfSpenders(events, owners, |events|, rows + {ByOrchestration} + {Nobody});
    ShareUnion(events, owners, |events|, rows, {ByOrchestration});
    ShareUnion(events, owners, |events|, rows + {ByOrchestration}, {Nobody});
  }

  lemma SpenderCovered(index: Index, events: seq<CostEvent>, names: set<string>, t: nat)
    requires t < |events| && (OwnerAt(index, events, t).ByPhase? ==> OwnerAt(index, events, t).phase in names)
    requires forall i | 0 <= i < |events| && IsDispatch(events[i]) :: KeyOf(index, events, i).0 in names
    ensures Owners(index, events)[t] in RowOwners(index, events, names) + {ByOrchestration} + {Nobody}
  {
    hide KeyOf, RowOwners;
    if OwnerAt(index, events, t).ByFrame? {
      FramesAreDispatches(index, events, t);
    }
    hide OwnerAt;
  }

  lemma FramesAreDispatches(index: Index, events: seq<CostEvent>, t: nat)
    requires t < |events| && OwnerAt(index, events, t).ByFrame?
    ensures OwnerAt(index, events, t).at < |events| && IsDispatch(events[OwnerAt(index, events, t).at])
  {
  }

  /** On the streams the parser makes of lines with distinct uuids, nothing is
      unclaimed: the rows add up to the totals exactly. */
  lemma NothingUncounted(index: Index, lines: seq<Line>, r: Report)
    requires DistinctUuids(lines) && BreakdownOk(index, EventsOf(lines), r)
    ensures r.totals ==
            SumPhases(r.phases).Plus(if r.orchestration.Some? then r.orchestration.value.tokens else EmptyTokens)
  {
    hide BreakdownOk, EventsOf, Share, SumPhases, Attributes, TurnsLead, DistinctUuids, Owners, Deferred;
    var events := EventsOf(lines);
    NothingCountedTwice(index, events, r);
    ParsedTurnsLead(lines);
    OwnersAttribute(index, events);
    NothingLost(events, Owners(index, events), Deferred(events));
    PlusEmpty(SumPhases(r.phases).Plus(if r.orchestration.Some? then r.orchestration.value.tokens else EmptyTokens));
  }

  // ----- What a phase's rows list and measure ---------------------------------------------------

  /** Every dispatch is listed in one row, under its phase and its skill, and in no other. */
  lemma EveryDispatchOnce(index: Index, events: seq<CostEvent>, r: Report, i: nat)
    requires BreakdownOk(index, events, r) && i < |events| && IsDispatch(events[i])
    ensures var key := KeyOf(index, events, i);
            key.0 in r.phases
            && (exists q :: 0 <= q < |r.phases[key.0].skills| && HasAt(r.phases[key.0].skills[q].invocations, i))
            && DistinctSkills(r.phases[key.0].skills)
    ensures forall p, q | p in r.phases && 0 <= q < |r.phases[p].skills| && HasAt(r.phases[p].skills[q].invocations, i) ::
              (p, r.phases[p].skills[q].skill) == KeyOf(index, events, i)
  {
    var key := KeyOf(index, events, i);
    hide KeyOf, TokensOk, WallOk, OrchestrationRowOk, Clock, ListOk, ShareOf, InUse, Total;
    assert PhaseRowOk(index, events, key.0, r.phases[key.0]);
    var q :| 0 <= q < |r.phases[key.0].skills| && r.phases[key.0].skills[q].skill == key.1;
    assert SkillRowOk(index, events, key.0, r.phases[key.0].skills[q]);
    assert key == (key.0, key.1);
    hide HasAt;
    forall p, q | p in r.phases && 0 <= q < |r.phases[p].skills| && HasAt(r.phases[p].skills[q].invocations, i)
      ensures (p, r.phases[p].skills[q].skill) == key
    {
      assert PhaseRowOk(index, events, p, r.phases[p]);
      ListedUnder(index, events, p, r.phases[p].skills[q], i);
    }
  }

  lemma ListedUnder(index: Index, events: seq<CostEvent>, phase: string, row: SkillRow, i: nat)
    requires SkillRowOk(index, events, phase, row) && HasAt(row.invocations, i)
    ensures i < |events| && IsDispatch(events[i]) && KeyOf(index, events, i) == (phase, row.skill)
  {
    hide KeyOf, ShareOf;
    var j :| 0 <= j < |row.invocations| && row.invocations[j].at == i;
    InvocationSeen(index, events, (phase, row.skill), row.invocations, j);
  }

  ghost predicate IsPhaseSpan(index: Index, events: seq<CostEvent>, phase: string, iv: Interval) {
    exists i :: 0 <= i < |events| && IsDispatch(events[i]) && KeyOf(index, events, i).0 == phase
      && iv == Interval(events[i].ts, EndOf(index, events, i))
  }

  /** A phase's wall is the measure of the spans of all its dispatches, together
      with the orchestrator's span if it used tokens, whatever the rows' order. */
  lemma PhaseWallIs(index: Index, events: seq<CostEvent>, r: Report, phase: string, all: seq<Interval>)
    requires BreakdownOk(index, events, r) && phase in r.phases
    requires forall iv :: iv in all <==> IsPhaseSpan(index, events, phase, iv)
    ensures var own := if ShareOf(index, events, {ByPhase(phase)}) != EmptyTokens then [TurnSpan(index, events, ByPhase(phase))] else [];
            r.phases[phase].wall == RoundSeconds(UnionMeasure(all + own))
  {
    var row := r.phases[phase];
    assert PhaseRowOk(index, events, phase, row);
    hide BreakdownOk, SkillsOk, ShareOf, IsPhaseSpan, TurnSpan, RowSpans, UnionMeasure;
    var own := if row.thinking.Some? then [TurnSpan(index, events, ByPhase(phase))] else [];
    RowSpansAre(index, events, phase, row.skills);
    UnionOrderIndependent(RowSpans(row.skills) + own, all + own);
  }

  lemma RowSpansAre(index: Index, events: seq<CostEvent>, phase: string, rows: seq<SkillRow>)
    requires SkillsOk(index, events, phase, rows)
    ensures forall iv :: iv in RowSpans(rows) <==> IsPhaseSpan(index, events, phase, iv)
  {
    hide RowSpans, SkillRowOk, KeyOf, EndOf, HasAt, IsPhaseSpan;
    forall iv ensures iv in RowSpans(rows) <==> IsPhaseSpan(index, events, phase, iv) {
      InRowSpans(rows, iv);
      if iv in RowSpans(rows) {
        var q :| 0 <= q < |rows| && iv in Spans(rows[q].invocations);
        SpanInPhase(index, events, phase, rows[q], iv);
      }
      if IsPhaseSpan(index, events, phase, iv) {
        PhaseSpanListed(index, events, phase, rows, iv);
      }
    }
  }

  lemma {:induction false} InRowSpans(rows: seq<SkillRow>, iv: Interval)
    ensures iv in RowSpans(rows) <==> exists q :: 0 <= q < |rows| && iv in Spans(rows[q].invocations)
  {
    hide Spans;
    if rows != [] {
      var init := rows[..|rows| - 1];
      InRowSpans(init, iv);
      assert forall q | 0 <= q < |init| :: init[q] == rows[q];
    }
  }

  lemma SpanInPhase(index: Index, events: seq<CostEvent>, phase: string, row: SkillRow, iv: Interval)
    requires SkillRowOk(index, events, phase, row) && iv in Spans(row.invocations)
    ensures IsPhaseSpan(index, events, phase, iv)
  {
    hide KeyOf, ShareOf, EndOf, ListOk;
    var j :| 0 <= j < |row.invocations| && row.invocations[j].Span() == iv;
    InvocationSeen(index, events, (phase, row.skill), row.invocations, j);
  }

  lemma PhaseSpanListed(index: Index, events: seq<CostEvent>, phase: string, rows: seq<SkillRow>, iv: Interval)
    requires SkillsOk(index, events, phase, rows) && IsPhaseSpan(index, events, phase, iv)
    ensures exists q :: 0 <= q < |rows| && iv in Spans(rows[q].invocations)
  {
    hide KeyOf, ShareOf, EndOf, ListOk;
    var i: nat :| i < |events| && IsDispatch(events[i]) && KeyOf(index, events, i).0 == phase
      && iv == Interval(events[i].ts, EndOf(index, events, i));
    var q :| 0 <= q < |rows| && rows[q].skill == KeyOf(index, events, i).1;
    assert SkillRowOk(index, events, phase, rows[q]);
    assert KeyOf(index, events, i) == (phase, rows[q].skill);
    var invs := rows[q].invocations;
    var j :| 0 <= j < |invs| && invs[j].at == i;
    InvocationSeen(index, events, (phase, rows[q].skill), invs, j);
    assert Spans(invs)[j] == iv;
  }
}
