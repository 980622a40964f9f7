/**
 The finished tree of apps/ingest/structure_aggregator.py: per phase the skill
 rows and the "(direct turns)" row, with totals; and what the whole report keeps.
 */
module TreeReport {
  import opened Options
  import opened Transcript
  import opened Matching
  import opened Attribution
  import opened Registry
  import opened Structure
  import opened Tree
  import opened TreeSteps
  import opened TreeResults
  import opened TreeBuilder
  import opened Subtrees
  import opened TreeRows
  import opened TreeLists

  datatype Phase = Phase(children: seq<Node>, tokens: Tokens, status: Status)

  // ----- Splitting a bucket --------------------------------------------------------

  function Those(nodes: seq<Node>, inline: bool): seq<Node> {
    if nodes == [] then []
    else
      var last := nodes[|nodes| - 1];
      Those(nodes[..|nodes| - 1], inline) + if IsInline(last) == inline then [last] else []
  }

  lemma ThoseNext(nodes: seq<Node>, n: nat, inline: bool)
    requires n < |nodes|
    ensures Those(nodes[..n + 1], inline) == Those(nodes[..n], inline) + if IsInline(nodes[n]) == inline then [nodes[n]] else []
  {
    assert nodes[..n + 1][..n] == nodes[..n];
  }

  /** The synthetic row, unless the orchestrator did nothing here. */
  function DirectRow(inline: Inline, rows: seq<Node>): seq<Node> {
    if inline.tokens == EmptyTokens && !inline.unpriced && rows == [] then []
    else [InlineNode(inline.tokens, inline.turns + rows)]
  }

  function PhaseChildren(kids: Kids, inline: Inline): seq<Node> {
    Those(kids.nodes, false) + DirectRow(inline, Those(kids.nodes, true))
  }

  /** Moves tools out of the bucket into the synthetic row. */
  method Inject(kids: Kids, inline: Inline) returns (children: seq<Node>)
    ensures children == PhaseChildren(kids, inline)
  {
    hide *;
    ThoseNone();
    BillableZero(inline.tokens);
    var rows: seq<Node>, kept: seq<Node> := [], [];
    for c := 0 to |kids.nodes|
      invariant kept == Those(kids.nodes[..c], false)
      invariant rows == Those(kids.nodes[..c], true)
    {
      ThoseNext(kids.nodes, c, false);
      ThoseNext(kids.nodes, c, true);
      if IsInline(kids.nodes[c]) {
        rows := rows + [kids.nodes[c]];
      } else {
        kept := kept + [kids.nodes[c]];
      }
    }
    assert kids.nodes[..|kids.nodes|] == kids.nodes;
    children := kept;
    if inline.tokens.Billable() != 0 || inline.unpriced || rows != [] {
      children := children + [InlineNode(inline.tokens, inline.turns + rows)];
    }
    ChildrenAre(kids, inline);
  }

  lemma ChildrenAre(kids: Kids, inline: Inline)
    ensures var rows := Those(kids.nodes, true);
            PhaseChildren(kids, inline) ==
            if inline.tokens == EmptyTokens && !inline.unpriced && rows == [] then Those(kids.nodes, false)
            else Those(kids.nodes, false) + [InlineNode(inline.tokens, inline.turns + rows)]
  {
    hide Those;
  }

  lemma ThoseNone()
    ensures Those([], true) == [] && Those([], false) == []
  {
  }

  lemma BillableZero(tokens: Tokens)
    ensures tokens.Billable() == 0 <==> tokens == EmptyTokens
  {
  }

  // ----- The order of the rows that are kept --------------------------------------------

  /** Where the rows that are kept stood. */
  ghost function Picked(nodes: seq<Node>, inline: bool): seq<nat> {
    if nodes == [] then []
    else
      var n := |nodes| - 1;
      Picked(nodes[..n], inline) + if IsInline(nodes[n]) == inline then [n] else []
  }

  ghost predicate PicksAll(nodes: seq<Node>, inline: bool, some: seq<Node>, idx: seq<nat>) {
    |idx| == |some|
    && (forall i | 0 <= i < |idx| :: idx[i] < |nodes| && nodes[idx[i]] == some[i] && IsInline(some[i]) == inline)
    && (forall i, j | 0 <= i < j < |idx| :: idx[i] < idx[j])
    && (forall c | 0 <= c < |nodes| && IsInline(nodes[c]) == inline :: exists i :: 0 <= i < |idx| && idx[i] == c)
  }

  lemma {:induction false} PickedIs(nodes: seq<Node>, inline: bool)
    ensures PicksAll(nodes, inline, Those(nodes, inline), Picked(nodes, inline))
  {
    hide IsInline;
    if nodes != [] {
      var some, idx := Those(nodes[..|nodes| - 1], inline), Picked(nodes[..|nodes| - 1], inline);
      PickedIs(nodes[..|nodes| - 1], inline);
      PickedNext(nodes, inline, some, idx);
      assert some + [] == some && idx + [] == idx;
    }
  }

  lemma PickedNext(nodes: seq<Node>, inline: bool, some: seq<Node>, idx: seq<nat>)
    requires nodes != [] && PicksAll(nodes[..|nodes| - 1], inline, some, idx)
    ensures var n := |nodes| - 1;
            if IsInline(nodes[n]) == inline then PicksAll(nodes, inline, some + [nodes[n]], idx + [n])
            else PicksAll(nodes, inline, some, idx)
  {
    hide IsInline;
    var n := |nodes| - 1;
    forall c | 0 <= c < n && IsInline(nodes[c]) == inline ensures exists i :: 0 <= i < |idx| && idx[i] == c && (idx + [n])[i] == c {
      assert nodes[..n][c] == nodes[c];
      var i :| 0 <= i < |idx| && idx[i] == c;
      assert (idx + [n])[i] == c;
    }
    assert (idx + [n])[|idx|] == n;
  }

  // ----- Phase totals ----------------------------------------------------------------

  function RowTokens(node: Node): Tokens {
    if node.SkillNode? || node.InlineNode? then node.tokens else EmptyTokens
  }

  function AllRowTokens(nodes: seq<Node>): Tokens {
    if nodes == [] then EmptyTokens else AllRowTokens(nodes[..|nodes| - 1]).Plus(RowTokens(nodes[|nodes| - 1]))
  }

  lemma AllRowTokensSnoc(nodes: seq<Node>, node: Node)
    ensures AllRowTokens(nodes + [node]) == AllRowTokens(nodes).Plus(RowTokens(node))
  {
    assert (nodes + [node])[..|nodes|] == nodes;
  }

  predicate SomeIncomplete(nodes: seq<Node>) {
    exists c :: 0 <= c < |nodes| && nodes[c].SkillNode? && nodes[c].status == Incomplete
  }

  method RollTotals(children: seq<Node>) returns (tokens: Tokens, status: Status)
    ensures tokens == AllRowTokens(children)
    ensures status == if SomeIncomplete(children) then Incomplete else Fine
  {
    tokens, status := EmptyTokens, Fine;
    for c := 0 to |children|
      invariant tokens == AllRowTokens(children[..c])
      invariant status == if SomeIncomplete(children[..c]) then Incomplete else Fine
    {
      assert children[..c + 1] == children[..c] + [children[c]];
      AllRowTokensSnoc(children[..c], children[c]);
      SomeIncompleteSnoc(children[..c], children[c]);
      PlusEmpty(tokens);
      if children[c].SkillNode? || children[c].InlineNode? {
        tokens := tokens.Plus(children[c].tokens);
        if children[c].SkillNode? && children[c].status == Incomplete {
          status := Incomplete;
        }
      }
    }
    assert children[..|children|] == children;
  }

  lemma SomeIncompleteSnoc(nodes: seq<Node>, node: Node)
    ensures SomeIncomplete(nodes + [node]) <==> SomeIncomplete(nodes) || (node.SkillNode? && node.status == Incomplete)
  {
    var after := nodes + [node];
    if SomeIncomplete(nodes) {
      var c :| 0 <= c < |nodes| && nodes[c].SkillNode? && nodes[c].status == Incomplete;
      assert after[c] == nodes[c];
    }
    assert after[|nodes|] == node;
  }

  // ----- What a phase's row says -----------------------------------------------------------

  /** Every turn of the phase: the orchestrator's own, and those of all skills
      whose top-level skill belongs to the phase. */
  ghost function HomeOwners(r: Run, p: string): set<Owner> {
    {ByPhase(p)} + set i: nat | i < |r.events| && IsDispatch(r.events[i]) && HomeOf(r, RootOf(r, i)) == p :: ByFrame(i)
  }

  ghost predicate RowOk(r: Run, p: string, node: Node) {
    match node
    case SkillNode(at, _, _, _, _, _) => NodeOk(r, None, node) && HomeOf(r, at) == p
    case InlineNode(tokens, rows) =>
      tokens == OwnShare(r, |r.events|, ByPhase(p)) && forall c | 0 <= c < |rows| :: DirectOk(r, p, rows[c])
    case _ => false
  }

  /** A row of the orchestrator's own work: a narration turn or a tool call at top level. */
  ghost predicate DirectOk(r: Run, p: string, row: Node) {
    NodeOk(r, None, row)
    && if row.TurnNode? then TurnOwner(r, row.at) == ByPhase(p) else IsInline(row) && InBucket(r, p, row)
  }

  ghost predicate PhaseOk(r: Run, p: string, phase: Phase) {
    (forall c | 0 <= c < |phase.children| :: RowOk(r, p, phase.children[c]))
    && (forall c | 0 <= c < |phase.children| - 1 :: phase.children[c].SkillNode?)
    && phase.tokens == Share(r.events, TurnOwners(r), |r.events|, HomeOwners(r, p))
    && phase.tokens == AllRowTokens(phase.children)
    && DirectRowDue(r, p, phase.children)
    && PhaseRows(r, p, phase.children)
    && phase.status == (if NeverClosed(r, phase.children) then Incomplete else Fine)
  }

  predicate HasDirectRow(rows: seq<Node>) {
    rows != [] && rows[|rows| - 1].InlineNode?
  }

  /** There is a "(direct turns)" row if the orchestrator used tokens here, or
      tokens of unknown price; if it did not, the row holds a tool call. */
  ghost predicate DirectRowDue(r: Run, p: string, rows: seq<Node>) {
    var spent := OwnShare(r, |r.events|, ByPhase(p)) != EmptyTokens || Unpriced(r, |r.events|, p);
    (spent ==> HasDirectRow(rows))
    && (HasDirectRow(rows) && !spent ==>
          var direct := rows[|rows| - 1].children; exists c :: 0 <= c < |direct| && IsInline(direct[c]))
  }

  /** What the orchestrator did itself in a phase, row by row. */
  function DirectRows(rows: seq<Node>): seq<Node> {
    if HasDirectRow(rows) then rows[|rows| - 1].children else []
  }

  /** Narration first, then tool calls, each in stream order. */
  ghost predicate DirectAscends(r: Run, direct: seq<Node>) {
    forall c, d | 0 <= c < d < |direct| ::
      (direct[d].TurnNode? ==> direct[c].TurnNode?)
      && (direct[c].TurnNode? == direct[d].TurnNode? ==> Entry(r, direct[c]) < Entry(r, direct[d]))
  }

  ghost predicate SkillsAscend(r: Run, rows: seq<Node>) {
    forall c, d | 0 <= c < d < |rows| && rows[d].SkillNode? :: Entry(r, rows[c]) < Entry(r, rows[d])
  }

  /** The phase's skills in the order in which they closed, each listing its
      rows; and every tool call that landed in the phase itself, parallel ones
      grouped and failed ones marked, with what the orchestrator said. */
  ghost predicate PhaseRows(r: Run, p: string, rows: seq<Node>) {
    SkillsAscend(r, rows) && AllDeep(r, rows)
    && ToolRowsOk(r, |r.events|, ByPhase(p), DirectRows(rows)) && DirectAscends(r, DirectRows(rows))
    && (HasDirectRow(rows) ==> TurnsAre(r, |r.events|, ByPhase(p), DirectRows(rows)))
  }

  ghost predicate NeverClosed(r: Run, rows: seq<Node>) {
    exists c :: 0 <= c < |rows| && rows[c].SkillNode? && rows[c].at < |r.events| && IsDispatch(r.events[rows[c].at])
                && ClosedBy(r.events, rows[c].at).None?
  }

  ghost function ReportLabels(report: map<string, Phase>): multiset<Label> {
    if report == map[] then multiset{} else
      var p :| p in report;
      ReportLabels(report - {p}) + AllLabels(report[p].children)
  }

  /** Every phase's row is right; the rows list every dispatch and every tool
      call exactly once; and a phase without a row owns no usage and no tool call. */
  ghost predicate TreeOk(r: Run, report: map<string, Phase>, totals: Tokens) {
    (forall p | p in report :: PhaseOk(r, p, report[p]))
    && ReportLabels(report) == EventLabels(r.events, |r.events|)
    && (forall p | p !in report :: Share(r.events, TurnOwners(r), |r.events|, HomeOwners(r, p)) == EmptyTokens)
    && (forall p, t: nat | p !in report && t < |r.events| :: !Lands(r, t, ByPhase(p)))
    && totals == Total(r.events, |r.events|)
  }

  method Aggregate(index: Index, events: seq<CostEvent>) returns (report: map<string, Phase>, totals: Tokens)
    ensures TreeOk(Run(index, events), report, totals)
  {
    hide *;
    ghost var r := Run(index, events);
    var tasks := ScanTasks(index, events);
    var builder := new Builder(index, events, tasks);
    for k := 0 to |events|
      invariant builder.Holds(r, k)
    {
      builder.Step(r, k, events[k]);
    }
    totals := builder.totals;
    builder.AtEnd(r);
    builder.Finish(r);
    HandsOver(r, builder.buckets, builder.inline);
    report := FinishPhases(builder.buckets, builder.inline);
    Reports(r, builder.buckets, builder.inline, report, totals);
  }

  /** What the fold hands over to the report. */
  ghost predicate Folded(r: Run, buckets: map<string, Kids>, inline: map<string, Inline>) {
    BucketsOk(r, buckets) && BucketLabels(buckets) == EventLabels(r.events, |r.events|) && InlinesOk(r, |r.events|, inline)
    && BucketsDone(r, 2 * |r.events| + 1, buckets) && InlinesNeat(r, |r.events|, inline)
  }

  lemma HandsOver(r: Run, buckets: map<string, Kids>, inline: map<string, Inline>)
    requires BucketsOk(r, buckets) && BucketLabels(buckets) == EventLabels(r.events, |r.events|) && InlinesOk(r, |r.events|, inline)
    requires BucketsDone(r, 2 * |r.events| + 1, buckets) && InlinesNeat(r, |r.events|, inline)
    ensures Folded(r, buckets, inline)
  {
  }

  function FinishedPhase(kids: Kids, inline: Inline): Phase {
    var children := PhaseChildren(kids, inline);
    Phase(children, AllRowTokens(children), if SomeIncomplete(children) then Incomplete else Fine)
  }

  ghost predicate Built(report: map<string, Phase>, buckets: map<string, Kids>, inline: map<string, Inline>) {
    report.Keys == buckets.Keys + inline.Keys && Rows(report, buckets, inline)
  }

  method FinishPhases(buckets: map<string, Kids>, inline: map<string, Inline>) returns (report: map<string, Phase>)
    ensures Built(report, buckets, inline)
  {
    hide *;
    report := map[];
    RowsGain(report, buckets, inline, "");
    var all := buckets.Keys + inline.Keys;
    var left := all;
    while left != {}
      invariant left <= all && report.Keys == all - left
      invariant Rows(report, buckets, inline)
      decreases |left|
    {
      var p :| p in left;
      var phase := FinishPhase(KidsOf(buckets, p), InlineOf(inline, p));
      RowsGain(report, buckets, inline, p);
      MovesOne(all, left, p);
      left := left - {p};
      report := report[p := phase];
    }
    BuiltIs(report, buckets, inline);
  }

  ghost predicate Rows(report: map<string, Phase>, buckets: map<string, Kids>, inline: map<string, Inline>) {
    forall p | p in report :: report[p] == FinishedPhase(KidsOf(buckets, p), InlineOf(inline, p))
  }

  lemma RowsGain(report: map<string, Phase>, buckets: map<string, Kids>, inline: map<string, Inline>, p: string)
    ensures Rows(map[], buckets, inline)
    ensures Rows(report, buckets, inline) ==> Rows(report[p := FinishedPhase(KidsOf(buckets, p), InlineOf(inline, p))], buckets, inline)
  {
    hide FinishedPhase, KidsOf, InlineOf;
  }

  lemma MovesOne(all: set<string>, left: set<string>, p: string)
    requires left <= all && p in left
    ensures left - {p} <= all && (all - left) + {p} == all - (left - {p}) && |left - {p}| < |left|
  {
  }

  lemma BuiltIs(report: map<string, Phase>, buckets: map<string, Kids>, inline: map<string, Inline>)
    requires Rows(report, buckets, inline)
    ensures report.Keys == buckets.Keys + inline.Keys ==> Built(report, buckets, inline)
  {
    hide FinishedPhase, KidsOf, InlineOf;
  }

  method FinishPhase(kids: Kids, inline: Inline) returns (phase: Phase)
    ensures phase == FinishedPhase(kids, inline)
  {
    var children := Inject(kids, inline);
    var tokens, status := RollTotals(children);
    phase := Phase(children, tokens, status);
  }

  // ----- The rows of one phase ---------------------------------------------------------------

  /** A list of well-placed top-level nodes of phase p. */
  ghost predicate Placed(r: Run, p: string, nodes: seq<Node>) {
    forall c | 0 <= c < |nodes| :: NodeOk(r, None, nodes[c]) && InBucket(r, p, nodes[c])
  }

  lemma BucketPlaced(r: Run, buckets: map<string, Kids>, p: string)
    requires BucketsOk(r, buckets)
    ensures Placed(r, p, KidsOf(buckets, p).nodes)
  {
    hide NodeOk, InBucket;
    assert BucketOk(r, p, KidsOf(buckets, p));
  }

  lemma KindsOfRows(r: Run, p: string, node: Node)
    requires InBucket(r, p, node)
    ensures node.SkillNode? || IsInline(node)
    ensures node.SkillNode? && NodeOk(r, None, node) ==> RowOk(r, p, node)
    ensures IsInline(node) && NodeOk(r, None, node) ==> DirectOk(r, p, node)
    ensures node.SkillNode? ==> !IsInline(node)
  {
    hide NodeOk, HomeOf, PhaseAt, TurnOwner;
  }

  lemma {:induction false} ThoseOk(r: Run, p: string, nodes: seq<Node>)
    requires Placed(r, p, nodes)
    ensures forall c | 0 <= c < |Those(nodes, false)| :: Those(nodes, false)[c].SkillNode? && RowOk(r, p, Those(nodes, false)[c])
    ensures forall c | 0 <= c < |Those(nodes, true)| :: IsInline(Those(nodes, true)[c]) && DirectOk(r, p, Those(nodes, true)[c])
    ensures AllRowTokens(Those(nodes, false)) == SkillTokens(nodes)
    ensures AllLabels(Those(nodes, false)) + AllLabels(Those(nodes, true)) == AllLabels(nodes)
  {
    hide *;
    if nodes == [] {
      ThoseNone();
      EmptyRows();
    } else {
      var n := |nodes| - 1;
      assert nodes == nodes[..n] + [nodes[n]];
      PlacedSplit(r, p, nodes);
      ThoseOk(r, p, nodes[..n]);
      ThoseStep(r, p, nodes[..n], nodes[n]);
    }
  }

  lemma PlacedSplit(r: Run, p: string, nodes: seq<Node>)
    requires Placed(r, p, nodes) && nodes != []
    ensures Placed(r, p, nodes[..|nodes| - 1]) && NodeOk(r, None, nodes[|nodes| - 1]) && InBucket(r, p, nodes[|nodes| - 1])
  {
    hide NodeOk, InBucket;
  }

  lemma ThoseStep(r: Run, p: string, nodes: seq<Node>, node: Node)
    requires Placed(r, p, nodes) && NodeOk(r, None, node) && InBucket(r, p, node)
    requires forall c | 0 <= c < |Those(nodes, false)| :: Those(nodes, false)[c].SkillNode? && RowOk(r, p, Those(nodes, false)[c])
    requires forall c | 0 <= c < |Those(nodes, true)| :: IsInline(Those(nodes, true)[c]) && DirectOk(r, p, Those(nodes, true)[c])
    requires AllRowTokens(Those(nodes, false)) == SkillTokens(nodes)
    requires AllLabels(Those(nodes, false)) + AllLabels(Those(nodes, true)) == AllLabels(nodes)
    ensures var after := nodes + [node];
            (forall c | 0 <= c < |Those(after, false)| :: Those(after, false)[c].SkillNode? && RowOk(r, p, Those(after, false)[c]))
            && (forall c | 0 <= c < |Those(after, true)| :: IsInline(Those(after, true)[c]) && DirectOk(r, p, Those(after, true)[c]))
            && AllRowTokens(Those(after, false)) == SkillTokens(after)
            && AllLabels(Those(after, false)) + AllLabels(Those(after, true)) == AllLabels(after)
  {
    hide *;
    var skill := Those(nodes, false);
    KindsOfRows(r, p, node);
    ThoseSnoc(nodes, node, false);
    ThoseSnoc(nodes, node, true);
    AllLabelsSnoc(nodes, node);
    SkillTokensSnoc(nodes, node);
    RowTokensIs(node);
    if node.SkillNode? {
      AllRowTokensSnoc(skill, node);
      AllLabelsSnoc(skill, node);
    } else {
      AllLabelsSnoc(Those(nodes, true), node);
      PlusEmpty(SkillTokens(nodes));
    }
  }

  lemma ThoseSnoc(nodes: seq<Node>, node: Node, inline: bool)
    ensures Those(nodes + [node], inline) == if IsInline(node) == inline then Those(nodes, inline) + [node] else Those(nodes, inline)
  {
    assert (nodes + [node])[..|nodes|] == nodes;
  }

  lemma RowTokensIs(node: Node)
    ensures node.SkillNode? ==> RowTokens(node) == TokensIfSkill(node)
    ensures !node.SkillNode? ==> TokensIfSkill(node) == EmptyTokens
  {
  }

  lemma {:induction false} NoTurnLabels(turns: seq<Node>, rows: seq<Node>)
    requires forall c | 0 <= c < |turns| :: turns[c].TurnNode?
    ensures AllLabels(turns + rows) == AllLabels(rows)
  {
    hide AllLabels, Labels;
    if rows == [] {
      TurnsHaveNone(turns);
      EmptyRows();
      assert turns + rows == turns;
    } else {
      var n := |rows| - 1;
      NoTurnLabels(turns, rows[..n]);
      AllLabelsSnoc(turns + rows[..n], rows[n]);
      AllLabelsSnoc(rows[..n], rows[n]);
      assert rows == rows[..n] + [rows[n]] && turns + rows == (turns + rows[..n]) + [rows[n]];
    }
  }

  lemma {:induction false} TurnsHaveNone(turns: seq<Node>)
    requires forall c | 0 <= c < |turns| :: turns[c].TurnNode?
    ensures AllLabels(turns) == multiset{}
  {
    if turns != [] {
      TurnsHaveNone(turns[..|turns| - 1]);
    }
  }

  /** The synthetic row carries exactly the phase's own share and its tool calls. */
  lemma DirectRowOk(r: Run, p: string, inline: Inline, rows: seq<Node>)
    requires InlineOk(r, |r.events|, p, inline)
    requires forall c | 0 <= c < |rows| :: DirectOk(r, p, rows[c])
    ensures AllRowTokens(DirectRow(inline, rows)) == inline.tokens
    ensures AllLabels(DirectRow(inline, rows)) == AllLabels(rows)
    ensures DirectRow(inline, rows) != [] ==> DirectRow(inline, rows)[0].InlineNode? && RowOk(r, p, DirectRow(inline, rows)[0])
    ensures |DirectRow(inline, rows)| <= 1
  {
    hide OwnShare, NodeOk, TurnOwner, InBucket;
    if DirectRow(inline, rows) != [] {
      var node := InlineNode(inline.tokens, inline.turns + rows);
      forall c | 0 <= c < |node.children| ensures DirectOk(r, p, node.children[c]) {
      }
      NoTurnLabels(inline.turns, rows);
      hide DirectOk, AllLabels;
      OneRow(node);
    }
  }

  /** The row is there exactly when the source adds one. */
  lemma DirectRowIs(r: Run, p: string, inline: Inline, skill: seq<Node>, rows: seq<Node>)
    requires InlineOk(r, |r.events|, p, inline)
    requires forall c | 0 <= c < |rows| :: IsInline(rows[c])
    requires forall c | 0 <= c < |skill| :: skill[c].SkillNode?
    ensures DirectRowDue(r, p, skill + DirectRow(inline, rows))
  {
    hide OwnShare, NodeOk, TurnOwner, Unpriced, IsInline;
    var all := skill + DirectRow(inline, rows);
    if DirectRow(inline, rows) != [] {
      assert all[|all| - 1] == InlineNode(inline.tokens, inline.turns + rows);
      if rows != [] {
        assert (inline.turns + rows)[|inline.turns|] == rows[0];
      }
    }
  }

  /** Rows picked out of a list keep its order. */
  lemma PickedAscends(r: Run, nodes: seq<Node>, inline: bool, some: seq<Node>, idx: seq<nat>)
    requires RowsAscend(r, nodes) && PicksAll(nodes, inline, some, idx)
    ensures RowsAscend(r, some)
  {
    hide Entry, IsInline;
  }

  function Padded(n: nat, idx: seq<nat>): seq<nat> {
    seq(n, i => 0) + idx
  }

  lemma InlineBehind(turns: seq<Node>, some: seq<Node>)
    requires forall c | 0 <= c < |turns| :: turns[c].TurnNode?
    requires forall c | 0 <= c < |some| :: IsInline(some[c])
    ensures forall i | 0 <= i < |turns + some| :: IsInline((turns + some)[i]) <==> i >= |turns|
  {
  }

  lemma PaddedAt(n: nat, idx: seq<nat>)
    ensures |Padded(n, idx)| == n + |idx|
    ensures forall i | 0 <= i < |idx| :: Padded(n, idx)[n + i] == idx[i]
    ensures forall i | n <= i < n + |idx| :: Padded(n, idx)[i] == idx[i - n]
  {
  }

  /** A row behind the turns, and where it stood. */
  lemma PickedAt(nodes: seq<Node>, turns: seq<Node>, some: seq<Node>, idx: seq<nat>, i: nat)
    requires PicksAll(nodes, true, some, idx) && i < |some|
    ensures var all, where := turns + some, Padded(|turns|, idx);
            |where| == |all| && where[|turns| + i] == idx[i] && all[|turns| + i] == some[i]
            && idx[i] < |nodes| && nodes[idx[i]] == some[i] && IsInline(some[i])
  {
    PaddedAt(|turns|, idx);
    hide IsInline, Padded;
  }

  lemma PickedShown(nodes: seq<Node>, turns: seq<Node>, some: seq<Node>, idx: seq<nat>)
    requires PicksAll(nodes, true, some, idx) && forall c | 0 <= c < |turns| :: turns[c].TurnNode?
    ensures Shown(nodes, turns + some, Padded(|turns|, idx))
  {
    hide IsInline, Padded, PicksAll;
    var all, where, n := turns + some, Padded(|turns|, idx), |turns|;
    PicksAre(nodes, some, idx);
    InlineBehind(turns, some);
    PickedOrder(nodes, some, idx);
    PaddedAt(n, idx);
    forall i | 0 <= i < |all| && IsInline(all[i]) ensures where[i] < |nodes| && nodes[where[i]] == all[i] && where[i] == idx[i - n] {
      PickedAt(nodes, turns, some, idx, i - n);
    }
    forall c | 0 <= c < |nodes| && IsInline(nodes[c]) ensures exists i :: 0 <= i < |all| && IsInline(all[i]) && where[i] == c {
      var i := PickOf(nodes, some, idx, c);
      PickedAt(nodes, turns, some, idx, i);
      assert where[n + i] == c;
    }
  }

  lemma PickedOrder(nodes: seq<Node>, some: seq<Node>, idx: seq<nat>)
    requires PicksAll(nodes, true, some, idx)
    ensures |idx| == |some| && forall i, j | 0 <= i < j < |idx| :: idx[i] < idx[j]
  {
    hide IsInline;
  }

  lemma PickOf(nodes: seq<Node>, some: seq<Node>, idx: seq<nat>, c: nat) returns (i: nat)
    requires PicksAll(nodes, true, some, idx) && c < |nodes| && IsInline(nodes[c])
    ensures i < |idx| && i < |some| && idx[i] == c
  {
    hide IsInline;
    i :| 0 <= i < |idx| && idx[i] == c;
  }

  lemma DirectTurns(turns: seq<Node>, some: seq<Node>, t: nat)
    requires forall c | 0 <= c < |some| :: IsInline(some[c])
    ensures HasTurn(turns + some, t) <==> HasTurn(turns, t)
  {
    if HasTurn(turns, t) {
      var c :| 0 <= c < |turns| && turns[c].TurnNode? && turns[c].at == t;
      assert (turns + some)[c] == turns[c];
    }
  }

  /** The synthetic row lists what the orchestrator said and did in the phase. */
  lemma DirectRowsOk(r: Run, p: string, nodes: seq<Node>, inline: Inline)
    requires RowsOk(r, |r.events|, ByPhase(p), nodes) && InlineNeat(r, |r.events|, p, inline)
    ensures var direct := inline.turns + Those(nodes, true);
            ToolRowsOk(r, |r.events|, ByPhase(p), direct) && DirectAscends(r, direct) && TurnsAre(r, |r.events|, ByPhase(p), direct)
  {
    hide *;
    var some, idx, n := Those(nodes, true), Picked(nodes, true), |r.events|;
    InlineParts(r, n, p, inline);
    RowsParts(r, n, ByPhase(p), nodes);
    PickedIs(nodes, true);
    PicksAre(nodes, some, idx);
    PickedShown(nodes, inline.turns, some, idx);
    ShownRows(r, n, ByPhase(p), nodes, inline.turns + some, Padded(|inline.turns|, idx));
    PickedAscends(r, nodes, true, some, idx);
    DirectOrder(r, inline.turns, some);
    DirectTurnsAre(r, p, inline.turns, some);
  }

  lemma RowsParts(r: Run, k: nat, o: Owner, nodes: seq<Node>)
    requires k <= |r.events| && RowsOk(r, k, o, nodes)
    ensures ToolRowsOk(r, k, o, nodes) && RowsAscend(r, nodes)
  {
    hide ToolRowsOk, RowsAscend, TurnsAre;
  }

  lemma PicksAre(nodes: seq<Node>, some: seq<Node>, idx: seq<nat>)
    requires PicksAll(nodes, true, some, idx)
    ensures forall c | 0 <= c < |some| :: IsInline(some[c])
  {
    hide IsInline;
  }

  lemma DirectOrder(r: Run, turns: seq<Node>, some: seq<Node>)
    requires RowsAscend(r, turns) && RowsAscend(r, some)
    requires forall c | 0 <= c < |turns| :: turns[c].TurnNode?
    requires forall c | 0 <= c < |some| :: IsInline(some[c])
    ensures DirectAscends(r, turns + some)
  {
    hide Entry;
    var all := turns + some;
    forall c, d | 0 <= c < d < |all| && all[c].TurnNode? == all[d].TurnNode? ensures Entry(r, all[c]) < Entry(r, all[d]) {
      if d < |turns| {
        assert all[c] == turns[c] && all[d] == turns[d];
      } else {
        assert all[c] == some[c - |turns|] && all[d] == some[d - |turns|];
      }
    }
  }

  lemma DirectTurnsAre(r: Run, p: string, turns: seq<Node>, some: seq<Node>)
    requires TurnsAre(r, |r.events|, ByPhase(p), turns) && forall c | 0 <= c < |some| :: IsInline(some[c])
    ensures TurnsAre(r, |r.events|, ByPhase(p), turns + some)
  {
    hide HasTurn, Says, IsInline;
    forall t: nat ensures HasTurn(turns + some, t) <==> HasTurn(turns, t) {
      DirectTurns(turns, some, t);
    }
  }

  /** The rows of a phase, all told. */
  lemma PhaseRowsOk(r: Run, p: string, kids: Kids, inline: Inline)
    requires RowsOk(r, |r.events|, ByPhase(p), kids.nodes) && AllDeep(r, kids.nodes) && InlineNeat(r, |r.events|, p, inline)
    requires forall c | 0 <= c < |Those(kids.nodes, false)| :: Those(kids.nodes, false)[c].SkillNode?
    ensures PhaseRows(r, p, PhaseChildren(kids, inline))
  {
    hide *;
    var nodes, skill, some := kids.nodes, Those(kids.nodes, false), Those(kids.nodes, true);
    DirectRowsOk(r, p, nodes, inline);
    RowsParts(r, |r.events|, ByPhase(p), nodes);
    PickedIs(nodes, false);
    PickedAscends(r, nodes, false, skill, Picked(nodes, false));
    PickedDeep(r, nodes, skill, Picked(nodes, false));
    PickedIs(nodes, true);
    ChildrenAre(kids, inline);
    if inline.tokens == EmptyTokens && !inline.unpriced && some == [] {
      PickedShown(nodes, [], some, Picked(nodes, true));
      assert [] + some == [];
      ShownRows(r, |r.events|, ByPhase(p), nodes, [] + some, Padded(0, Picked(nodes, true)));
      NoDirect(r, p, skill);
    } else {
      WithDirect(r, p, skill, InlineNode(inline.tokens, inline.turns + some));
    }
  }

  lemma PickedDeep(r: Run, nodes: seq<Node>, some: seq<Node>, idx: seq<nat>)
    requires AllDeep(r, nodes) && PicksAll(nodes, false, some, idx)
    ensures AllDeep(r, some)
  {
    hide Deep, IsInline;
  }

  lemma NoDirect(r: Run, p: string, skill: seq<Node>)
    requires RowsAscend(r, skill) && AllDeep(r, skill) && forall c | 0 <= c < |skill| :: skill[c].SkillNode?
    requires ToolRowsOk(r, |r.events|, ByPhase(p), [])
    ensures PhaseRows(r, p, skill)
  {
    hide Entry, ToolRowsOk, TurnsAre, Deep;
  }

  lemma WithDirect(r: Run, p: string, skill: seq<Node>, node: Node)
    requires RowsAscend(r, skill) && AllDeep(r, skill) && forall c | 0 <= c < |skill| :: skill[c].SkillNode?
    requires node.InlineNode? && ToolRowsOk(r, |r.events|, ByPhase(p), node.children) && DirectAscends(r, node.children)
    requires TurnsAre(r, |r.events|, ByPhase(p), node.children)
    ensures PhaseRows(r, p, skill + [node])
  {
    hide Entry, ToolRowsOk, TurnsAre, RowsOk, DirectAscends;
    var rows := skill + [node];
    assert DirectRows(rows) == node.children;
    assert Deep(r, node);
    hide Deep;
    forall c, d | 0 <= c < d < |rows| && rows[d].SkillNode? ensures Entry(r, rows[c]) < Entry(r, rows[d]) {
      assert rows[c] == skill[c] && rows[d] == skill[d];
    }
  }

  lemma OneRow(node: Node)
    ensures AllRowTokens([node]) == RowTokens(node) && AllLabels([node]) == Labels(node)
  {
    assert [node] == [] + [node];
    AllRowTokensSnoc([], node);
    AllLabelsSnoc([], node);
    PlusEmpty(RowTokens(node));
  }

  /** Labels and tokens of a phase's finished children. */
  lemma PhaseChildrenOk(r: Run, p: string, kids: Kids, inline: Inline)
    requires Placed(r, p, kids.nodes) && InlineOk(r, |r.events|, p, inline)
    ensures var rows := PhaseChildren(kids, inline);
            (forall c | 0 <= c < |rows| :: RowOk(r, p, rows[c]))
            && (forall c | 0 <= c < |rows| - 1 :: rows[c].SkillNode?)
            && AllRowTokens(rows) == SkillTokens(kids.nodes).Plus(inline.tokens)
            && AllLabels(rows) == AllLabels(kids.nodes)
            && DirectRowDue(r, p, rows)
  {
    hide Placed, InlineOk, DirectRowDue, RowOk, DirectOk, Those, AllLabels, AllRowTokens, SkillTokens, DirectRow, IsInline;
    var skill, direct := Those(kids.nodes, false), DirectRow(inline, Those(kids.nodes, true));
    ThoseOk(r, p, kids.nodes);
    DirectRowOk(r, p, inline, Those(kids.nodes, true));
    DirectRowIs(r, p, inline, skill, Those(kids.nodes, true));
    if direct == [] {
      assert skill + direct == skill;
      EmptyRows();
      PlusEmpty(AllRowTokens(skill));
    } else {
      assert direct == [direct[0]];
      OneRow(direct[0]);
      AllRowTokensSnoc(skill, direct[0]);
      AllLabelsSnoc(skill, direct[0]);
    }
  }

  lemma EmptyRows()
    ensures AllRowTokens([]) == EmptyTokens && SkillTokens([]) == EmptyTokens && AllLabels([]) == multiset{}
  {
  }

  // ----- A phase's tokens --------------------------------------------------------------------------

  lemma LabelsWithin(buckets: map<string, Kids>, p: string)
    ensures AllLabels(KidsOf(buckets, p).nodes) <= BucketLabels(buckets)
  {
    if p in buckets {
      BucketLabelsAt(buckets, p);
      hide AllLabels, BucketLabels;
    }
  }

  lemma {:induction false} SomeBucket(buckets: map<string, Kids>, l: Label) returns (p: string)
    requires l in BucketLabels(buckets)
    ensures l in AllLabels(KidsOf(buckets, p).nodes)
    decreases |buckets|
  {
    p :| p in buckets && BucketLabels(buckets) == BucketLabels(buckets - {p}) + AllLabels(buckets[p].nodes);
    hide AllLabels;
    if l !in AllLabels(buckets[p].nodes) {
      p := SomeBucket(buckets - {p}, l);
    }
  }

  lemma HomeInside(r: Run, buckets: map<string, Kids>, p: string, i: nat)
    requires BucketsOk(r, buckets) && SkillAt(i) in AllLabels(KidsOf(buckets, p).nodes)
    ensures i < |r.events| && IsDispatch(r.events[i]) && HomeOf(r, RootOf(r, i)) == p
  {
    var holder := InlineNode(EmptyTokens, KidsOf(buckets, p).nodes);
    BucketPlaced(r, buckets, p);
    hide NodeOk, InBucket, RootOf, AllLabels, HomeOf, BucketsOk;
    assert holder.children[..|holder.children|] == holder.children;
    RootBelow(r, None, holder, |holder.children|, i);
    var c :| 0 <= c < |holder.children| && holder.children[c].SkillNode? && holder.children[c].at == RootOf(r, i);
    SkillsHome(r, p, holder.children[c]);
  }

  lemma SkillsHome(r: Run, p: string, node: Node)
    requires InBucket(r, p, node) && node.SkillNode?
    ensures node.at < |r.events| && IsDispatch(r.events[node.at]) && HomeOf(r, node.at) == p
  {
  }

  lemma HomeOwnersAre(r: Run, buckets: map<string, Kids>, p: string)
    requires BucketsOk(r, buckets) && BucketLabels(buckets) == EventLabels(r.events, |r.events|)
    ensures HomeOwners(r, p) == {ByPhase(p)} + OwnersOf(AllLabels(KidsOf(buckets, p).nodes))
  {
    var m := AllLabels(KidsOf(buckets, p).nodes);
    hide AllLabels, EventLabels, BucketLabels, HomeOf, RootOf, BucketsOk, OwnersOf;
    forall o ensures o in HomeOwners(r, p) <==> o in {ByPhase(p)} + OwnersOf(m) {
      OnlyFrames(m, o);
      if o.ByFrame? {
        OneOwner(r, buckets, p, o.at);
      }
    }
  }

  lemma OneOwner(r: Run, buckets: map<string, Kids>, p: string, i: nat)
    requires BucketsOk(r, buckets) && BucketLabels(buckets) == EventLabels(r.events, |r.events|)
    ensures ByFrame(i) in HomeOwners(r, p) <==> ByFrame(i) in OwnersOf(AllLabels(KidsOf(buckets, p).nodes))
  {
    var m := AllLabels(KidsOf(buckets, p).nodes);
    hide AllLabels, EventLabels, BucketLabels, HomeOf, RootOf, BucketsOk, OwnersOf, KidsOf, IsDispatch;
    OwnsAt(m, i);
    if SkillAt(i) in m {
      HomeInside(r, buckets, p, i);
    } else if i < |r.events| && IsDispatch(r.events[i]) && HomeOf(r, RootOf(r, i)) == p {
      LabelCount(r.events, |r.events|, SkillAt(i));
      var q := SomeBucket(buckets, SkillAt(i));
      HomeInside(r, buckets, q, i);
    }
  }

  lemma OnlyFrames(m: multiset<Label>, o: Owner)
    ensures o in OwnersOf(m) ==> o.ByFrame?
  {
  }

  lemma PhaseTokens(r: Run, buckets: map<string, Kids>, p: string)
    requires BucketsOk(r, buckets) && BucketLabels(buckets) == EventLabels(r.events, |r.events|)
    ensures SkillTokens(KidsOf(buckets, p).nodes).Plus(OwnShare(r, |r.events|, ByPhase(p)))
            == Share(r.events, TurnOwners(r), |r.events|, HomeOwners(r, p))
  {
    hide *;
    var nodes := KidsOf(buckets, p).nodes;
    var holder := InlineNode(EmptyTokens, nodes);
    LabelsWithin(buckets, p);
    EventLabelsDistinct(r.events, |r.events|);
    DistinctWithin(AllLabels(nodes), EventLabels(r.events, |r.events|));
    AllNodesOk(r, buckets, p);
    assert holder.children[..|nodes|] == nodes;
    ChildrenTokens(r, None, holder, |nodes|);
    HomeOwnersAre(r, buckets, p);
    AddShares(r, p, AllLabels(nodes));
  }

  lemma AllNodesOk(r: Run, buckets: map<string, Kids>, p: string)
    requires BucketsOk(r, buckets)
    ensures forall c | 0 <= c < |KidsOf(buckets, p).nodes| :: NodeOk(r, None, KidsOf(buckets, p).nodes[c])
  {
    hide NodeOk, InBucket, BucketsOk;
    BucketPlaced(r, buckets, p);
  }

  lemma AddShares(r: Run, p: string, m: multiset<Label>)
    ensures Held(r, m).Plus(OwnShare(r, |r.events|, ByPhase(p)))
            == Share(r.events, TurnOwners(r), |r.events|, {ByPhase(p)} + OwnersOf(m))
  {
    hide Share, TurnOwners, OwnersOf;
    OnlyFrames(m, ByPhase(p));
    assert {ByPhase(p)} !! OwnersOf(m);
    ShareUnion(r.events, TurnOwners(r), |r.events|, {ByPhase(p)}, OwnersOf(m));
    PlusCommutes(Held(r, m), OwnShare(r, |r.events|, ByPhase(p)));
  }

  // ----- The report ------------------------------------------------------------------------------------

  lemma Reports(r: Run, buckets: map<string, Kids>, inline: map<string, Inline>, report: map<string, Phase>, totals: Tokens)
    requires Folded(r, buckets, inline) && Built(report, buckets, inline) && totals == Total(r.events, |r.events|)
    ensures TreeOk(r, report, totals)
  {
    hide PhaseOk, FinishedPhase, BucketsOk, InlinesOk, BucketsDone, InlinesNeat, Lands, BucketLabels, EventLabels, ReportLabels, KidsOf, InlineOf, Share, HomeOwners, TurnOwners, Total;
    forall p | p in report ensures PhaseOk(r, p, report[p]) {
      PhaseIs(r, buckets, inline, p);
    }
    forall p | p !in report ensures Share(r.events, TurnOwners(r), |r.events|, HomeOwners(r, p)) == EmptyTokens {
      NoPhase(r, buckets, inline, p);
    }
    forall p, t: nat | p !in report && t < |r.events| ensures !Lands(r, t, ByPhase(p)) {
      NoLanding(r, buckets, inline, p, t);
    }
    forall p ensures AllLabels(FinishedPhase(KidsOf(buckets, p), InlineOf(inline, p)).children) == AllLabels(KidsOf(buckets, p).nodes) {
      PhaseIs(r, buckets, inline, p);
    }
    SameLabels(report, buckets);
  }

  lemma PhaseIs(r: Run, buckets: map<string, Kids>, inline: map<string, Inline>, p: string)
    requires Folded(r, buckets, inline)
    ensures var phase := FinishedPhase(KidsOf(buckets, p), InlineOf(inline, p));
            PhaseOk(r, p, phase) && AllLabels(phase.children) == AllLabels(KidsOf(buckets, p).nodes)
  {
    hide *;
    var kids, own := KidsOf(buckets, p), InlineOf(inline, p);
    Unfolds(r, buckets, inline, p);
    BucketPlaced(r, buckets, p);
    PhaseChildrenOk(r, p, kids, own);
    ThoseOk(r, p, kids.nodes);
    PhaseRowsOk(r, p, kids, own);
    PhaseTokens(r, buckets, p);
    IncompleteIs(r, p, PhaseChildren(kids, own));
    PhaseOkNow(r, p, kids, own);
  }

  lemma Unfolds(r: Run, buckets: map<string, Kids>, inline: map<string, Inline>, p: string)
    requires Folded(r, buckets, inline)
    ensures BucketsOk(r, buckets) && BucketLabels(buckets) == EventLabels(r.events, |r.events|)
    ensures InlineOk(r, |r.events|, p, InlineOf(inline, p))
    ensures InlineOf(inline, p).tokens == OwnShare(r, |r.events|, ByPhase(p))
    ensures InlineNeat(r, |r.events|, p, InlineOf(inline, p))
    ensures RowsOk(r, |r.events|, ByPhase(p), KidsOf(buckets, p).nodes) && AllDeep(r, KidsOf(buckets, p).nodes)
  {
    assert InlineOk(r, |r.events|, p, InlineOf(inline, p));
    assert InlineNeat(r, |r.events|, p, InlineOf(inline, p));
    assert ListDone(r, 2 * |r.events| + 1, ByPhase(p), KidsOf(buckets, p));
    hide InlineNeat, RowsOk, AllDeep, Under, BucketsOk, BucketLabels, EventLabels, InlinesOk, OwnShare, NodeOk, TurnOwner, InlineOf;
  }

  lemma PhaseOkNow(r: Run, p: string, kids: Kids, inline: Inline)
    requires var rows := PhaseChildren(kids, inline);
             (forall c | 0 <= c < |rows| :: RowOk(r, p, rows[c])) && (forall c | 0 <= c < |rows| - 1 :: rows[c].SkillNode?)
             && (SomeIncomplete(rows) <==> NeverClosed(r, rows))
             && AllRowTokens(rows) == Share(r.events, TurnOwners(r), |r.events|, HomeOwners(r, p))
             && DirectRowDue(r, p, rows) && PhaseRows(r, p, rows)
    ensures PhaseOk(r, p, FinishedPhase(kids, inline)) && FinishedPhase(kids, inline).children == PhaseChildren(kids, inline)
  {
    hide PhaseChildren, RowOk, SomeIncomplete, NeverClosed, AllRowTokens, Share, TurnOwners, HomeOwners, DirectRowDue, PhaseRows;
  }

  lemma IncompleteIs(r: Run, p: string, rows: seq<Node>)
    requires forall c | 0 <= c < |rows| :: RowOk(r, p, rows[c])
    ensures SomeIncomplete(rows) <==> NeverClosed(r, rows)
  {
    hide NodeOk, ClosedBy, HomeOf, OwnShare, DirectOk;
    forall c | 0 <= c < |rows| && rows[c].SkillNode?
      ensures rows[c].at < |r.events| && IsDispatch(r.events[rows[c].at])
      ensures rows[c].status == Incomplete <==> ClosedBy(r.events, rows[c].at).None?
    {
      assert RowOk(r, p, rows[c]);
      SkillNodeFacts(r, None, rows[c]);
    }
    hide RowOk;
  }

  lemma NoPhase(r: Run, buckets: map<string, Kids>, inline: map<string, Inline>, p: string)
    requires Folded(r, buckets, inline) && p !in buckets && p !in inline
    ensures Share(r.events, TurnOwners(r), |r.events|, HomeOwners(r, p)) == EmptyTokens
  {
    assert KidsOf(buckets, p).nodes == [] && InlineOf(inline, p).tokens == EmptyTokens;
    assert InlineOk(r, |r.events|, p, InlineOf(inline, p));
    assert OwnShare(r, |r.events|, ByPhase(p)) == EmptyTokens;
    hide InlinesOk, OwnShare, InlineOk, BucketsOk, BucketLabels, EventLabels, Share, TurnOwners, KidsOf, InlineOf, HomeOwners;
    PhaseTokens(r, buckets, p);
  }

  lemma NoLanding(r: Run, buckets: map<string, Kids>, inline: map<string, Inline>, p: string, t: nat)
    requires Folded(r, buckets, inline) && p !in buckets && t < |r.events|
    ensures !Lands(r, t, ByPhase(p))
  {
    hide *;
    Unfolds(r, buckets, inline, p);
    RowsParts(r, |r.events|, ByPhase(p), KidsOf(buckets, p).nodes);
    ToolRowsIs(r, |r.events|, ByPhase(p), KidsOf(buckets, p).nodes);
    KidsAt(buckets, p);
    NothingListed(r, p, t);
  }

  lemma NothingListed(r: Run, p: string, t: nat)
    requires t < |r.events| && ToolsAre(r, |r.events|, ByPhase(p), NoKids.nodes)
    ensures !Lands(r, t, ByPhase(p))
  {
    assert !HasTool(NoKids.nodes, t);
    hide Lands;
  }

  lemma {:induction false} SameLabels(report: map<string, Phase>, buckets: map<string, Kids>)
    requires buckets.Keys <= report.Keys
    requires forall p | p in report :: AllLabels(report[p].children) == AllLabels(KidsOf(buckets, p).nodes)
    ensures ReportLabels(report) == BucketLabels(buckets)
    decreases |report|
  {
    hide AllLabels, KidsOf, BucketLabels;
    if report == map[] {
      NoBuckets(buckets);
    } else {
      var p :| p in report && ReportLabels(report) == ReportLabels(report - {p}) + AllLabels(report[p].children);
      hide ReportLabels;
      forall q | q in report - {p} ensures AllLabels((report - {p})[q].children) == AllLabels(KidsOf(buckets - {p}, q).nodes) {
        KidsApart(buckets, p, q);
      }
      SameLabels(report - {p}, buckets - {p});
      BucketApart(buckets, p);
    }
  }

  lemma NoBuckets(buckets: map<string, Kids>)
    requires buckets.Keys == {}
    ensures BucketLabels(buckets) == multiset{}
  {
    assert buckets == map[];
  }

  lemma KidsApart(buckets: map<string, Kids>, p: string, q: string)
    requires p != q
    ensures KidsOf(buckets - {p}, q) == KidsOf(buckets, q)
  {
  }

  lemma BucketApart(buckets: map<string, Kids>, p: string)
    ensures BucketLabels(buckets) == BucketLabels(buckets - {p}) + AllLabels(KidsOf(buckets, p).nodes)
  {
    hide BucketLabels;
    if p in buckets {
      BucketLabelsAt(buckets, p);
    } else {
      assert buckets - {p} == buckets;
      EmptyRows();
    }
  }
}
