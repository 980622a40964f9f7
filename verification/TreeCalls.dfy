/**
 Where the finished tree lists every skill and every tool call, and that
 parallel calls stand in one group.
 */
module TreeCalls {
  import opened Options
  import opened Transcript
  import opened Matching
  import opened Attribution
  import opened Registry
  import opened Structure
  import opened Tree
  import opened TreeSteps
  import opened TreeResults
  import opened Subtrees
  import opened TreeRows
  import opened TreeLists
  import opened TreeReport
  import opened TreeTotals
  import CostLaws
  import TreeLaws

  // ----- Rows of the report ------------------------------------------------------------------

  /** `node` is the row `top`, or stands below it. */
  ghost predicate Contains(top: Node, node: Node)
    decreases top
  {
    top == node
    || ((top.SkillNode? || top.InlineNode?) && exists c :: 0 <= c < |top.children| && Contains(top.children[c], node))
  }

  ghost predicate InReport(report: map<string, Phase>, node: Node) {
    exists p, c :: p in report && 0 <= c < |report[p].children| && Contains(report[p].children[c], node)
  }

  lemma {:induction false} ContainsMore(top: Node, node: Node, c: nat)
    requires Contains(top, node) && (node.SkillNode? || node.InlineNode?) && c < |node.children|
    ensures Contains(top, node.children[c])
    decreases top
  {
    if top == node {
      assert Contains(top.children[c], node.children[c]);
    } else {
      var d :| 0 <= d < |top.children| && Contains(top.children[d], node);
      ContainsMore(top.children[d], node, c);
    }
  }

  lemma InReportMore(report: map<string, Phase>, node: Node, c: nat)
    requires InReport(report, node) && (node.SkillNode? || node.InlineNode?) && c < |node.children|
    ensures InReport(report, node.children[c])
  {
    var p, d :| p in report && 0 <= d < |report[p].children| && Contains(report[p].children[d], node);
    ContainsMore(report[p].children[d], node, c);
  }

  /** The list that belongs to a skill, or to the orchestrator in a phase. */
  ghost predicate ListOf(report: map<string, Phase>, o: Owner, nodes: seq<Node>) {
    match o
    case ByFrame(i) => exists node :: InReport(report, node) && node.SkillNode? && node.at == i && node.children == nodes
    case ByPhase(p) => p in report && nodes == DirectRows(report[p].children)
    case _ => false
  }

  // ----- Finding a skill's row -----------------------------------------------------------------------

  lemma {:induction false} SomeChild(nodes: seq<Node>, l: Label) returns (c: nat)
    requires l in AllLabels(nodes)
    ensures c < |nodes| && l in Labels(nodes[c])
  {
    hide Labels;
    var n := |nodes| - 1;
    if l in Labels(nodes[n]) {
      c := n;
    } else {
      c := SomeChild(nodes[..n], l);
    }
  }

  lemma SkillLabels(node: Node, i: nat)
    requires node.SkillNode? && SkillAt(i) in Labels(node) && i != node.at
    ensures SkillAt(i) in AllLabels(node.children)
  {
  }

  /** The row's facts, and the skill that lists it. */
  ghost predicate RowFound(r: Run, top: Node, parent: Option<nat>, i: nat, node: Node, under: Option<nat>) {
    Contains(top, node) && node.SkillNode? && node.at == i && NodeOk(r, under, node) && Deep(r, node)
    && ((node == top && under == parent) || exists holder :: ListsIn(top, holder, node) && under == Some(holder.at))
  }

  ghost predicate ListsIn(top: Node, holder: Node, node: Node) {
    holder.SkillNode? && Contains(top, holder) && node in holder.children
  }

  lemma {:induction false} FindSkill(r: Run, parent: Option<nat>, top: Node, i: nat) returns (node: Node, under: Option<nat>)
    requires NodeOk(r, parent, top) && top.SkillNode? && Deep(r, top) && SkillAt(i) in Labels(top)
    ensures RowFound(r, top, parent, i, node, under)
    decreases top
  {
    hide *;
    if top.at == i {
      node, under := top, parent;
      FoundTop(r, parent, top);
    } else {
      SkillLabels(top, i);
      var c := SomeChild(top.children, SkillAt(i));
      SkillNodeFacts(r, parent, top);
      SkillLabel(r, Some(top.at), top.children[c], i);
      DeepChild(r, top, c);
      node, under := FindSkill(r, Some(top.at), top.children[c], i);
      FoundBelow(r, top, parent, c, i, node, under);
    }
  }

  lemma FoundTop(r: Run, parent: Option<nat>, top: Node)
    requires NodeOk(r, parent, top) && top.SkillNode? && Deep(r, top)
    ensures RowFound(r, top, parent, top.at, top, parent)
  {
    hide NodeOk, Deep;
  }

  lemma DeepChild(r: Run, top: Node, c: nat)
    requires Deep(r, top) && top.SkillNode? && c < |top.children|
    ensures Deep(r, top.children[c])
  {
    hide RowsOk;
  }

  lemma FoundBelow(r: Run, top: Node, parent: Option<nat>, c: nat, i: nat, node: Node, under: Option<nat>)
    requires top.SkillNode? && c < |top.children| && RowFound(r, top.children[c], Some(top.at), i, node, under)
    ensures RowFound(r, top, parent, i, node, under)
  {
    hide NodeOk, Deep;
    var kid := top.children[c];
    assert Contains(kid, node);
    if node == kid && under == Some(top.at) {
      assert ListsIn(top, top, node);
    } else {
      var holder :| ListsIn(kid, holder, node) && under == Some(holder.at);
      assert ListsIn(top, holder, node);
    }
  }

  // ----- Every skill -----------------------------------------------------------------------------------

  lemma {:induction false} SomePhase(report: map<string, Phase>, l: Label) returns (p: string)
    requires l in ReportLabels(report)
    ensures p in report && l in AllLabels(report[p].children)
    decreases |report|
  {
    p :| p in report && ReportLabels(report) == ReportLabels(report - {p}) + AllLabels(report[p].children);
    hide AllLabels, ReportLabels;
    if l !in AllLabels(report[p].children) {
      p := SomePhase(report - {p}, l);
    }
  }

  /** No dispatch hides among the orchestrator's own work. */
  lemma DirectHasNoSkill(r: Run, p: string, row: Node, i: nat)
    requires RowOk(r, p, row) && SkillAt(i) in Labels(row)
    ensures row.SkillNode? && NodeOk(r, None, row) && HomeOf(r, row.at) == p
  {
    hide NodeOk, HomeOf, OwnShare, AllLabels, InBucket, TurnOwner;
    if row.InlineNode? {
      InlineLabels(row, i);
      var c := SomeChild(row.children, SkillAt(i));
      assert DirectOk(r, p, row.children[c]);
      SkillLabel(r, None, row.children[c], i);
    }
  }

  lemma InlineLabels(row: Node, i: nat)
    requires row.InlineNode? && SkillAt(i) in Labels(row)
    ensures SkillAt(i) in AllLabels(row.children)
  {
  }

  lemma PhaseFacts(r: Run, report: map<string, Phase>, totals: Tokens, p: string)
    requires TreeOk(r, report, totals) && p in report
    ensures forall c | 0 <= c < |report[p].children| :: RowOk(r, p, report[p].children[c])
    ensures AllDeep(r, report[p].children) && SkillsAscend(r, report[p].children)
    ensures ToolRowsOk(r, |r.events|, ByPhase(p), DirectRows(report[p].children)) && DirectAscends(r, DirectRows(report[p].children))
    ensures HasDirectRow(report[p].children) ==> TurnsAre(r, |r.events|, ByPhase(p), DirectRows(report[p].children))
  {
    hide ReportLabels, EventLabels, RowOk, Share, HomeOwners, TurnOwners, HomeOf, OwnShare, DirectOk, AllDeep, SkillsAscend, ToolRowsOk, DirectAscends, TurnsAre, DirectRowDue, AllRowTokens, NeverClosed, DirectRows, Lands, Total;
    assert PhaseOk(r, p, report[p]);
  }

  /** The row of a dispatch, read off the stream. */
  ghost predicate SkillRow(r: Run, i: nat, node: Node)
    requires i < |r.events| && IsDispatch(r.events[i])
  {
    node.SkillNode? && node.at == i && node.name == SkillName(r.events[i])
    && (node.subagent <==> !TreeLaws.NoneInFlight(r.events, i))
    && (match ClosedBy(r.events, i)
        case None => node.status == Incomplete
        case Some(j) => node.status == if r.events[j].isError then Failed else Fine)
    && RowsOk(r, |r.events|, ByFrame(i), node.children)
  }

  lemma SkillRowIs(r: Run, under: Option<nat>, node: Node)
    requires NodeOk(r, under, node) && node.SkillNode? && Deep(r, node)
    ensures node.at < |r.events| && IsDispatch(r.events[node.at]) && SkillRow(r, node.at, node) && ParentOf(r, node.at) == under
  {
    hide OpenAt, ClosedBy, ParentOf, RowsOk, TreeLaws.NoneInFlight, OwnShare, SkillTokens;
    TreeLaws.NoneIs(r.events, node.at);
  }

  /** The row stands where the dispatch belongs: under the skill that encloses
      it when it ends, or at the top of its phase. */
  ghost predicate StandsRight(r: Run, report: map<string, Phase>, i: nat, node: Node)
    requires i < |r.events| && IsDispatch(r.events[i])
  {
    match ParentOf(r, i)
    case None => HomeOf(r, i) in report && node in report[HomeOf(r, i)].children
    case Some(q) => exists holder :: InReport(report, holder) && holder.SkillNode? && holder.at == q && node in holder.children
  }

  /** Every dispatch has its row, in its place, listing what belongs to it. */
  lemma SkillListed(r: Run, report: map<string, Phase>, totals: Tokens, i: nat) returns (node: Node)
    requires TreeOk(r, report, totals) && i < |r.events| && IsDispatch(r.events[i])
    ensures InReport(report, node) && SkillRow(r, i, node) && StandsRight(r, report, i, node)
  {
    hide *;
    EveryCallOnce(r, report, totals, i);
    var p := SomePhase(report, SkillAt(i));
    PhaseFacts(r, report, totals, p);
    var c := SomeChild(report[p].children, SkillAt(i));
    var top := report[p].children[c];
    DirectHasNoSkill(r, p, top, i);
    SkillNodeFacts(r, None, top);
    DeepAt(r, report[p].children, c);
    var under;
    node, under := FindSkill(r, None, top, i);
    Placed(r, report, p, c, i, node, under);
  }

  lemma DeepAt(r: Run, nodes: seq<Node>, c: nat)
    requires AllDeep(r, nodes) && c < |nodes|
    ensures Deep(r, nodes[c])
  {
    hide Deep;
  }

  lemma Placed(r: Run, report: map<string, Phase>, p: string, c: nat, i: nat, node: Node, under: Option<nat>)
    requires p in report && c < |report[p].children| && report[p].children[c].SkillNode?
    requires RowFound(r, report[p].children[c], None, i, node, under)
    requires report[p].children[c].at < |r.events| && IsDispatch(r.events[report[p].children[c].at]) && HomeOf(r, report[p].children[c].at) == p
    ensures InReport(report, node) && i < |r.events| && IsDispatch(r.events[i]) && SkillRow(r, i, node) && StandsRight(r, report, i, node)
  {
    hide Contains, NodeOk, Deep, HomeOf, ParentOf, SkillRow, InReport;
    var top := report[p].children[c];
    SkillRowIs(r, under, node);
    InReportAt(report, p, c, node);
    if under.Some? {
      var holder :| ListsIn(top, holder, node) && under == Some(holder.at);
      InReportAt(report, p, c, holder);
    }
  }

  lemma InReportAt(report: map<string, Phase>, p: string, c: nat, node: Node)
    requires p in report && c < |report[p].children| && Contains(report[p].children[c], node)
    ensures InReport(report, node)
  {
    hide Contains;
  }

  // ----- Every tool call ---------------------------------------------------------------------------------

  lemma SkillRowList(r: Run, i: nat, node: Node)
    requires i < |r.events| && IsDispatch(r.events[i]) && SkillRow(r, i, node)
    ensures node.SkillNode? && node.at == i && RowsOk(r, |r.events|, ByFrame(i), node.children)
  {
    hide RowsOk, TreeLaws.NoneInFlight, ClosedBy;
  }

  lemma ListIs(report: map<string, Phase>, node: Node)
    requires InReport(report, node) && node.SkillNode?
    ensures ListOf(report, ByFrame(node.at), node.children)
  {
    hide InReport;
  }

  lemma LandsUnderDispatch(r: Run, t: nat, i: nat)
    requires t < |r.events| && Lands(r, t, ByFrame(i))
    ensures i < |r.events| && IsDispatch(r.events[i])
  {
    assert FramesOf(r.events, OpenAt(r.events, t));
    hide OpenAt, ActiveAt, PhaseAt;
  }

  /** The list that a tool call lands in is in the report, and holds the right
      calls: this one among them, parallel ones in groups, failed ones marked. */
  lemma CallListed(r: Run, report: map<string, Phase>, totals: Tokens, t: nat, o: Owner) returns (nodes: seq<Node>)
    requires TreeOk(r, report, totals) && t < |r.events| && Lands(r, t, o)
    ensures ListOf(report, o, nodes) && ToolRowsOk(r, |r.events|, o, nodes) && HasTool(nodes, t)
  {
    hide *;
    LandsSomewhere(r, t, o);
    if o.ByFrame? {
      LandsUnderDispatch(r, t, o.at);
      var node := SkillListed(r, report, totals, o.at);
      SkillRowList(r, o.at, node);
      nodes := node.children;
      ListIs(report, node);
      RowsParts(r, |r.events|, o, nodes);
    } else {
      HasRow(r, report, totals, o.phase, t);
      PhaseFacts(r, report, totals, o.phase);
      nodes := DirectRows(report[o.phase].children);
      DirectIs(report, o.phase);
    }
    ToolRowsIs(r, |r.events|, o, nodes);
    ListHas(r, o, nodes, t);
  }

  lemma LandsSomewhere(r: Run, t: nat, o: Owner)
    requires t < |r.events| && Lands(r, t, o)
    ensures o.ByFrame? || o.ByPhase?
  {
    hide ToolParent, PhaseAt;
  }

  lemma HasRow(r: Run, report: map<string, Phase>, totals: Tokens, p: string, t: nat)
    requires TreeOk(r, report, totals) && t < |r.events| && Lands(r, t, ByPhase(p))
    ensures p in report
  {
    hide PhaseOk, ReportLabels, EventLabels, Share, HomeOwners, Lands, TurnOwners, Total;
  }

  lemma DirectIs(report: map<string, Phase>, p: string)
    requires p in report
    ensures ListOf(report, ByPhase(p), DirectRows(report[p].children))
  {
    hide DirectRows;
  }

  lemma ListHas(r: Run, o: Owner, nodes: seq<Node>, t: nat)
    requires t < |r.events| && Lands(r, t, o) && ToolsAre(r, |r.events|, o, nodes)
    ensures HasTool(nodes, t)
  {
    hide HasTool, Lands;
  }

  /** Calls t and t + 1 stand next to each other in the group. */
  predicate Adjacent(group: Node, t: nat) {
    group.GroupNode? && exists a :: 0 <= a < |group.tools| - 1 && group.tools[a].at == t && group.tools[a + 1].at == t + 1
  }

  /** Two calls in a row of one message that are listed in the same place stand
      in one group, one after the other. */
  lemma ParallelCalls(r: Run, report: map<string, Phase>, totals: Tokens, t: nat) returns (group: Node)
    requires TreeOk(r, report, totals) && t + 1 < |r.events| && IsTool(r.events[t]) && IsTool(r.events[t + 1])
    requires SameUuid(r.events[t], r.events[t + 1]) && ToolParent(r, t) == ToolParent(r, t + 1)
    requires ToolParent(r, t).None? ==> PhaseAt(r, t + 1) == PhaseAt(r, t + 2)
    ensures InReport(report, group) && Adjacent(group, t)
  {
    hide *;
    var o := ToolSpot(r, t);
    SameSpot(r, t);
    var nodes := CallListed(r, report, totals, t, o);
    ToolRowsIs(r, |r.events|, o, nodes);
    ListHas(r, o, nodes, t + 1);
    var n := GroupOf(r, nodes, t);
    group := nodes[n];
    RowInReport(report, o, nodes, n);
  }

  lemma SameSpot(r: Run, t: nat)
    requires t + 1 < |r.events| && IsTool(r.events[t]) && IsTool(r.events[t + 1]) && ToolParent(r, t) == ToolParent(r, t + 1)
    requires ToolParent(r, t).None? ==> PhaseAt(r, t + 1) == PhaseAt(r, t + 2)
    ensures Lands(r, t, ToolSpot(r, t)) && Lands(r, t + 1, ToolSpot(r, t))
  {
    hide ToolParent, PhaseAt;
  }

  lemma GroupOf(r: Run, nodes: seq<Node>, t: nat) returns (n: nat)
    requires t + 1 < |r.events| && SameUuid(r.events[t], r.events[t + 1])
    requires HasTool(nodes, t) && HasTool(nodes, t + 1) && Clustered(r, nodes)
    ensures n < |nodes| && Adjacent(nodes[n], t)
  {
    var x :| Stands(nodes, x) && ToolAtPlace(nodes, x).at == t;
    var y :| Stands(nodes, y) && ToolAtPlace(nodes, y).at == t + 1;
    assert Parallel(r, nodes, x, y);
    n := x.n;
    assert nodes[n].tools[x.m].at == t && nodes[n].tools[x.m + 1].at == t + 1;
  }

  lemma RowInReport(report: map<string, Phase>, o: Owner, nodes: seq<Node>, n: nat)
    requires ListOf(report, o, nodes) && n < |nodes|
    ensures InReport(report, nodes[n])
  {
    hide InReport;
    if o.ByFrame? {
      var node :| InReport(report, node) && node.SkillNode? && node.at == o.at && node.children == nodes;
      InReportMore(report, node, n);
    } else {
      var rows := report[o.phase].children;
      InReportTop(report, o.phase, |rows| - 1);
      InReportMore(report, rows[|rows| - 1], n);
    }
  }

  lemma InReportTop(report: map<string, Phase>, p: string, c: int)
    requires p in report && 0 <= c < |report[p].children|
    ensures InReport(report, report[p].children[c])
  {
    assert Contains(report[p].children[c], report[p].children[c]);
  }
}
