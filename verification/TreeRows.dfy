/**
 Which rows stand in a list of children of the structure tree, and how: every
 tool call and narration turn that lands there and no other, in stream order,
 with parallel calls in one group and failed calls marked.
 */
module TreeRows {
  import opened Options
  import opened Transcript
  import opened Matching
  import opened Attribution
  import opened Structure
  import opened Tree
  import opened TreeSteps
  import opened TreeResults
  import opened Subtrees

  // ----- Where work lands --------------------------------------------------------------------

  /** The list that tool call t is attached to. */
  ghost function ToolSpot(r: Run, t: nat): Owner
    requires t < |r.events| && IsTool(r.events[t])
  {
    if ToolParent(r, t).Some? then ByFrame(ToolParent(r, t).value) else ByPhase(GetOr(PhaseAt(r, t + 1), ORCHESTRATION))
  }

  /** The list in which result j is looked up. */
  ghost function ResultSpot(r: Run, j: nat): Owner
    requires j < |r.events|
  {
    var open := OpenAt(r.events, j);
    if open != [] then ByFrame(open[|open| - 1])
    else if ActiveAt(r, j).Some? then ByFrame(ActiveAt(r, j).value)
    else ByPhase(BucketName(PhaseAt(r, j)))
  }

  /** Turn t says something at top level, and o is billed for it. */
  ghost predicate Says(r: Run, t: nat, o: Owner)
    requires t < |r.events|
  {
    r.events[t].AssistantTurn? && OpenAt(r.events, t) == [] && !Parks(r)[t] && r.events[t].text != "" && TurnOwner(r, t) == o
  }

  ghost predicate Lands(r: Run, t: nat, o: Owner)
    requires t < |r.events|
  {
    IsTool(r.events[t]) && ToolSpot(r, t) == o
  }

  /** Event j is an error result that closes no skill, looked up in list o. */
  ghost predicate ErrorAt(r: Run, j: nat, o: Owner)
    requires j < |r.events|
  {
    r.events[j].ToolResult? && r.events[j].isError && ResultSpot(r, j) == o
    && LastWith(r.events, OpenAt(r.events, j), r.events[j].matched) < 0
  }

  ghost predicate ErrorFor(r: Run, j: nat, id: string, o: Owner)
    requires j < |r.events|
  {
    ErrorAt(r, j, o) && Closes(r.events[j], id) && id != ""
  }

  ghost predicate CallsAs(r: Run, t: nat, id: string, o: Owner)
    requires t < |r.events|
  {
    Lands(r, t, o) && FrameId(r.events[t]) == id
  }

  /** Error result j finds call t: the latest call of its id in the list the result is looked up in. */
  ghost predicate Fails(r: Run, j: nat, t: nat)
    requires j < |r.events| && t < |r.events| && IsTool(r.events[t])
  {
    t < j && ErrorFor(r, j, FrameId(r.events[t]), ToolSpot(r, t))
    && forall m | t < m < j :: !CallsAs(r, m, FrameId(r.events[t]), ToolSpot(r, t))
  }

  ghost predicate FailedBy(r: Run, k: nat, t: nat)
    requires k <= |r.events| && t < |r.events| && IsTool(r.events[t])
  {
    exists j :: t < j < k && Fails(r, j, t)
  }

  // ----- Rows of one list -----------------------------------------------------------------------

  ghost predicate HasTool(nodes: seq<Node>, t: nat) {
    exists x :: Stands(nodes, x) && ToolAtPlace(nodes, x).at == t
  }

  ghost predicate HasTurn(nodes: seq<Node>, t: nat) {
    exists c :: 0 <= c < |nodes| && nodes[c].TurnNode? && nodes[c].at == t
  }

  /** When a row enters its list: a skill when it closes, or at the end. */
  ghost function Entry(r: Run, node: Node): nat {
    match node
    case SkillNode(at, _, _, _, _, _) => if at < |r.events| && IsDispatch(r.events[at]) then Rank(r.events, at) else 0
    case InlineNode(_, _) => 0
    case ToolNode(tool) => tool.at
    case GroupNode(tools) => if tools == [] then 0 else tools[0].at
    case TurnNode(at, _) => at
  }

  ghost predicate RowsAscend(r: Run, nodes: seq<Node>) {
    forall c, d | 0 <= c < d < |nodes| :: Entry(r, nodes[c]) < Entry(r, nodes[d])
  }

  ghost predicate ToolsAscend(nodes: seq<Node>) {
    forall x, y | Stands(nodes, x) && Stands(nodes, y) && Before(x, y) :: ToolAtPlace(nodes, x).at < ToolAtPlace(nodes, y).at
  }

  predicate NextInGroup(x: Place, y: Place) {
    x.Member? && y.Member? && y.n == x.n && y.m == x.m + 1
  }

  /** The calls at x and y follow each other in the stream, in one message. */
  ghost predicate Parallel(r: Run, nodes: seq<Node>, x: Place, y: Place) {
    Stands(nodes, x) && Stands(nodes, y)
    && ToolAtPlace(nodes, y).at == ToolAtPlace(nodes, x).at + 1 && ToolAtPlace(nodes, y).at < |r.events|
    && SameUuid(r.events[ToolAtPlace(nodes, x).at], r.events[ToolAtPlace(nodes, y).at])
  }

  /** Parallel calls stand together in a group, and a group is no single call. */
  ghost predicate Clustered(r: Run, nodes: seq<Node>) {
    (forall x, y | Parallel(r, nodes, x, y) :: NextInGroup(x, y))
    && forall c | 0 <= c < |nodes| && nodes[c].GroupNode? :: |nodes[c].tools| >= 2
  }

  ghost predicate ToolsAre(r: Run, k: nat, o: Owner, nodes: seq<Node>)
    requires k <= |r.events|
  {
    forall t: nat :: HasTool(nodes, t) <==> t < k && Lands(r, t, o)
  }

  ghost predicate TurnsAre(r: Run, k: nat, o: Owner, nodes: seq<Node>)
    requires k <= |r.events|
  {
    forall t: nat :: HasTurn(nodes, t) <==> t < k && Says(r, t, o)
  }

  /** A call has failed exactly when some error result found it. */
  ghost predicate MarksAre(r: Run, k: nat, nodes: seq<Node>)
    requires k <= |r.events|
  {
    forall x | Stands(nodes, x) :: MarkIs(r, k, ToolAtPlace(nodes, x))
  }

  ghost predicate MarkIs(r: Run, k: nat, tool: Tool)
    requires k <= |r.events|
  {
    tool.at < |r.events| && IsTool(r.events[tool.at]) && tool.id == FrameId(r.events[tool.at])
    && tool.status == if FailedBy(r, k, tool.at) then Failed else Fine
  }

  /** The tool rows of list o after k events. */
  ghost predicate ToolRowsOk(r: Run, k: nat, o: Owner, nodes: seq<Node>)
    requires k <= |r.events|
  {
    ToolsAre(r, k, o, nodes) && ToolsAscend(nodes) && Clustered(r, nodes) && MarksAre(r, k, nodes)
  }

  /** All rows of skill o after k events. */
  ghost predicate RowsOk(r: Run, k: nat, o: Owner, nodes: seq<Node>)
    requires k <= |r.events|
  {
    ToolRowsOk(r, k, o, nodes) && RowsAscend(r, nodes) && (o.ByFrame? ==> TurnsAre(r, k, o, nodes))
  }

  /** Every row entered before `bound`. */
  ghost predicate Under(r: Run, bound: nat, nodes: seq<Node>) {
    (forall c | 0 <= c < |nodes| :: Entry(r, nodes[c]) < bound)
    && forall x | Stands(nodes, x) :: ToolAtPlace(nodes, x).at < bound
  }

  /** If the last event is a call in the list, the next one can join it. */
  ghost predicate Tipped(r: Run, k: nat, kids: Kids)
    requires k <= |r.events|
  {
    forall x | Stands(kids.nodes, x) && ToolAtPlace(kids.nodes, x).at == k - 1 :: TipIs(r, k, kids, x)
  }

  ghost predicate TipIs(r: Run, k: nat, kids: Kids, x: Place)
    requires k <= |r.events|
  {
    k > 0 && kids.lastTurn == r.events[k - 1].uuid
    && match x
       case Row(n) => kids.lastGroup.None? && n == |kids.nodes| - 1
       case Member(n, m) => kids.lastGroup == Some(n) && n < |kids.nodes| && kids.nodes[n].GroupNode? && m == |kids.nodes[n].tools| - 1
  }

  /** No call stands behind the recorded group. */
  ghost predicate GroupLast(kids: Kids) {
    kids.lastGroup.Some? ==> forall x | Stands(kids.nodes, x) :: x.n <= kids.lastGroup.value
  }

  ghost predicate KidsNeat(r: Run, k: nat, bound: nat, o: Owner, kids: Kids)
    requires k <= |r.events|
  {
    GroupsValid(kids) && RowsOk(r, k, o, kids.nodes) && Under(r, bound, kids.nodes) && Tipped(r, k, kids) && GroupLast(kids)
  }

  // ----- A tool call joins a list ------------------------------------------------------------------

  predicate Joins(kids: Kids, turn: Option<string>) {
    Truthy(turn) && kids.lastTurn == turn && kids.lastGroup.Some?
  }

  predicate Pairs(kids: Kids, turn: Option<string>) {
    Truthy(turn) && kids.lastTurn == turn && kids.lastGroup.None? && kids.nodes != [] && kids.nodes[|kids.nodes| - 1].ToolNode?
  }

  /** Where the new call stands. */
  function NewPlace(kids: Kids, turn: Option<string>): Place
    requires GroupsValid(kids)
  {
    if Joins(kids, turn) then Member(kids.lastGroup.value, |kids.nodes[kids.lastGroup.value].tools|)
    else if Pairs(kids, turn) then Member(|kids.nodes| - 1, 1)
    else Row(|kids.nodes|)
  }

  /** Where a call stands that stood at x. */
  function Moved(kids: Kids, turn: Option<string>, x: Place): Place {
    if Pairs(kids, turn) && x == Row(|kids.nodes| - 1) then Member(|kids.nodes| - 1, 0) else x
  }

  /** Where a call that stands at x stood. */
  function Origin(kids: Kids, turn: Option<string>, x: Place): Place {
    if Pairs(kids, turn) && x == Member(|kids.nodes| - 1, 0) then Row(|kids.nodes| - 1) else x
  }

  /** `after` is `nodes` with one more call, at `place`; the others stand where they stood. */
  ghost predicate Attached(kids: Kids, tool: Tool, turn: Option<string>, after: seq<Node>, place: Place) {
    Stands(after, place) && ToolAtPlace(after, place) == tool
    && (forall x | Stands(after, x) && x != place ::
          Stands(kids.nodes, Origin(kids, turn, x)) && ToolAtPlace(after, x) == ToolAtPlace(kids.nodes, Origin(kids, turn, x)))
    && (forall x | Stands(kids.nodes, x) ::
          Moved(kids, turn, x) != place && Stands(after, Moved(kids, turn, x))
          && ToolAtPlace(after, Moved(kids, turn, x)) == ToolAtPlace(kids.nodes, x))
  }

  lemma Attaches(kids: Kids, tool: Tool, turn: Option<string>)
    requires GroupsValid(kids)
    ensures Attached(kids, tool, turn, AttachTool(kids, tool, turn).nodes, NewPlace(kids, turn))
  {
  }

  lemma AttachOrder(kids: Kids, tool: Tool, turn: Option<string>, x: Place, y: Place)
    requires GroupsValid(kids) && GroupLast(kids)
    requires var after := AttachTool(kids, tool, turn).nodes; Stands(after, x) && Stands(after, y) && Before(x, y)
    requires Attached(kids, tool, turn, AttachTool(kids, tool, turn).nodes, NewPlace(kids, turn))
    ensures x != NewPlace(kids, turn)
    ensures y == NewPlace(kids, turn) || Before(Origin(kids, turn, x), Origin(kids, turn, y))
  {
    assert y == NewPlace(kids, turn) || Stands(kids.nodes, Origin(kids, turn, y));
    hide ToolAtPlace;
  }

  lemma AttachHas(kids: Kids, tool: Tool, turn: Option<string>, after: seq<Node>, place: Place, t: nat)
    requires Attached(kids, tool, turn, after, place)
    ensures HasTool(after, t) <==> HasTool(kids.nodes, t) || t == tool.at
  {
    hide Stands, ToolAtPlace, Origin, Moved;
    if HasTool(kids.nodes, t) {
      var x :| Stands(kids.nodes, x) && ToolAtPlace(kids.nodes, x).at == t;
      assert Stands(after, Moved(kids, turn, x));
    }
  }

  lemma AttachAscends(r: Run, k: nat, kids: Kids, tool: Tool, turn: Option<string>)
    requires GroupsValid(kids) && GroupLast(kids) && ToolsAscend(kids.nodes) && Under(r, k, kids.nodes) && tool.at == k
    ensures ToolsAscend(AttachTool(kids, tool, turn).nodes)
    ensures forall x | Stands(AttachTool(kids, tool, turn).nodes, x) :: ToolAtPlace(AttachTool(kids, tool, turn).nodes, x).at <= k
  {
    var after := AttachTool(kids, tool, turn).nodes;
    Attaches(kids, tool, turn);
    hide Stands, ToolAtPlace, Origin, Moved, Before, AttachTool, NewPlace, GroupLast, Entry;
    forall x, y | Stands(after, x) && Stands(after, y) && Before(x, y) ensures ToolAtPlace(after, x).at < ToolAtPlace(after, y).at {
      AttachOrder(kids, tool, turn, x, y);
    }
  }

  /** A call of the message that made the last call joins it. */
  lemma TipJoins(r: Run, k: nat, kids: Kids, x: Place, turn: Option<string>)
    requires k <= |r.events| && GroupsValid(kids) && Stands(kids.nodes, x) && TipIs(r, k, kids, x)
    requires Truthy(turn) && r.events[k - 1].uuid == turn
    ensures NextInGroup(Moved(kids, turn, x), NewPlace(kids, turn))
  {
  }

  lemma OriginNext(kids: Kids, turn: Option<string>, x: Place, y: Place)
    requires NextInGroup(Origin(kids, turn, x), Origin(kids, turn, y))
    ensures NextInGroup(x, y)
  {
  }

  lemma MovedBack(kids: Kids, tool: Tool, turn: Option<string>, x: Place)
    requires GroupsValid(kids) && Stands(AttachTool(kids, tool, turn).nodes, x) && x != NewPlace(kids, turn)
    ensures Moved(kids, turn, Origin(kids, turn, x)) == x
  {
  }

  lemma AttachPairs(r: Run, k: nat, kids: Kids, tool: Tool, turn: Option<string>, x: Place, y: Place)
    requires k < |r.events| && GroupsValid(kids) && Clustered(r, kids.nodes) && Tipped(r, k, kids) && Under(r, k, kids.nodes)
    requires tool.at == k && r.events[k].uuid == turn
    requires Parallel(r, AttachTool(kids, tool, turn).nodes, x, y)
    requires Attached(kids, tool, turn, AttachTool(kids, tool, turn).nodes, NewPlace(kids, turn))
    ensures NextInGroup(x, y)
  {
    hide Stands, ToolAtPlace, Origin, Moved, AttachTool, NewPlace, GroupsValid, NextInGroup, TipIs, Entry;
    var place := NewPlace(kids, turn);
    if x != place {
      var u := Origin(kids, turn, x);
      if y == place {
        assert TipIs(r, k, kids, u);
        TipJoins(r, k, kids, u, turn);
        MovedBack(kids, tool, turn, x);
      } else {
        assert Parallel(r, kids.nodes, u, Origin(kids, turn, y));
        OriginNext(kids, turn, x, y);
      }
    }
  }

  lemma AttachClusters(r: Run, k: nat, kids: Kids, tool: Tool, turn: Option<string>)
    requires k < |r.events| && GroupsValid(kids) && Clustered(r, kids.nodes) && Tipped(r, k, kids) && Under(r, k, kids.nodes)
    requires tool.at == k && r.events[k].uuid == turn
    ensures Clustered(r, AttachTool(kids, tool, turn).nodes)
  {
    var after := AttachTool(kids, tool, turn).nodes;
    Attaches(kids, tool, turn);
    BigGroups(r, kids, tool, turn);
    hide Parallel, NextInGroup, AttachTool, NewPlace, GroupsValid, Tipped, Under, Attached;
    forall x, y | Parallel(r, after, x, y) ensures NextInGroup(x, y) {
      AttachPairs(r, k, kids, tool, turn, x, y);
    }
  }

  lemma BigGroups(r: Run, kids: Kids, tool: Tool, turn: Option<string>)
    requires GroupsValid(kids) && Clustered(r, kids.nodes)
    ensures var after := AttachTool(kids, tool, turn).nodes;
            forall c | 0 <= c < |after| && after[c].GroupNode? :: |after[c].tools| >= 2
  {
    hide Parallel, NextInGroup;
  }

  lemma AttachEntries(r: Run, k: nat, kids: Kids, tool: Tool, turn: Option<string>)
    requires GroupsValid(kids) && RowsAscend(r, kids.nodes) && Clustered(r, kids.nodes) && Under(r, k, kids.nodes) && tool.at == k
    ensures RowsAscend(r, AttachTool(kids, tool, turn).nodes)
    ensures forall c | 0 <= c < |AttachTool(kids, tool, turn).nodes| :: Entry(r, AttachTool(kids, tool, turn).nodes[c]) <= k
  {
    hide Parallel, NextInGroup, Rank, IsDispatch;
    var nodes, after := kids.nodes, AttachTool(kids, tool, turn).nodes;
    forall c | 0 <= c < |after| ensures Entry(r, after[c]) == if c < |nodes| then Entry(r, nodes[c]) else k {
    }
  }

  lemma AttachTips(r: Run, k: nat, kids: Kids, tool: Tool, turn: Option<string>)
    requires k < |r.events| && GroupsValid(kids) && Under(r, k, kids.nodes) && tool.at == k && r.events[k].uuid == turn
    requires GroupLast(kids)
    ensures Tipped(r, k + 1, AttachTool(kids, tool, turn)) && GroupLast(AttachTool(kids, tool, turn)) && GroupsValid(AttachTool(kids, tool, turn))
  {
    var after := AttachTool(kids, tool, turn);
    Attaches(kids, tool, turn);
    NewTip(r, k, kids, tool, turn);
    hide TipIs, AttachTool, NewPlace, GroupsValid, GroupLast, Entry, Stands, ToolAtPlace, Origin, Moved;
    forall x | Stands(after.nodes, x) && ToolAtPlace(after.nodes, x).at == k ensures TipIs(r, k + 1, after, x) {
      assert x == NewPlace(kids, turn);
    }
  }

  lemma NewTip(r: Run, k: nat, kids: Kids, tool: Tool, turn: Option<string>)
    requires k < |r.events| && GroupsValid(kids) && r.events[k].uuid == turn && GroupLast(kids)
    ensures TipIs(r, k + 1, AttachTool(kids, tool, turn), NewPlace(kids, turn))
    ensures GroupLast(AttachTool(kids, tool, turn)) && GroupsValid(AttachTool(kids, tool, turn))
  {
  }

  lemma AttachTurns(kids: Kids, tool: Tool, turn: Option<string>, t: nat)
    requires GroupsValid(kids)
    ensures HasTurn(AttachTool(kids, tool, turn).nodes, t) <==> HasTurn(kids.nodes, t)
  {
    var nodes, after := kids.nodes, AttachTool(kids, tool, turn).nodes;
    if HasTurn(nodes, t) {
      var c :| 0 <= c < |nodes| && nodes[c].TurnNode? && nodes[c].at == t;
      assert after[c] == nodes[c];
    }
    if HasTurn(after, t) {
      var c :| 0 <= c < |after| && after[c].TurnNode? && after[c].at == t;
      assert after[c] == nodes[c];
    }
  }

  lemma AttachMarks(r: Run, k: nat, kids: Kids, tool: Tool, turn: Option<string>)
    requires k < |r.events| && GroupsValid(kids) && MarksAre(r, k + 1, kids.nodes) && MarkIs(r, k + 1, tool)
    ensures MarksAre(r, k + 1, AttachTool(kids, tool, turn).nodes)
  {
    Attaches(kids, tool, turn);
    hide MarkIs, AttachTool, NewPlace, GroupsValid, Stands, ToolAtPlace, Origin, Moved;
  }

  // ----- An event that changes nothing in a list ---------------------------------------------------

  ghost predicate Quiet(r: Run, k: nat, o: Owner)
    requires k < |r.events|
  {
    !Lands(r, k, o) && !ErrorAt(r, k, o) && (o.ByFrame? ==> !Says(r, k, o))
  }

  lemma FailedStep(r: Run, k: nat, t: nat)
    requires k < |r.events| && t < |r.events| && IsTool(r.events[t])
    ensures FailedBy(r, k + 1, t) <==> FailedBy(r, k, t) || Fails(r, k, t)
  {
    hide ErrorFor, CallsAs, ToolSpot, IsTool;
    if j :| t < j < k && Fails(r, j, t) {
      assert t < j < k + 1;
    }
  }

  lemma MarkLater(r: Run, k: nat, tool: Tool, o: Owner)
    requires k < |r.events| && MarkIs(r, k, tool) && ToolSpot(r, tool.at) == o && !ErrorAt(r, k, o)
    ensures MarkIs(r, k + 1, tool)
  {
    hide FailedBy, ErrorAt, ToolSpot, IsTool;
    FailedStep(r, k, tool.at);
  }

  lemma ToolRowsLater(r: Run, k: nat, o: Owner, nodes: seq<Node>)
    requires k < |r.events| && ToolRowsOk(r, k, o, nodes) && !Lands(r, k, o) && !ErrorAt(r, k, o)
    ensures ToolRowsOk(r, k + 1, o, nodes)
  {
    hide MarkIs, ToolsAscend, Clustered, Stands, ToolAtPlace, ErrorAt, ToolSpot, IsTool;
    forall x | Stands(nodes, x) ensures MarkIs(r, k + 1, ToolAtPlace(nodes, x)) {
      assert HasTool(nodes, ToolAtPlace(nodes, x).at);
      MarkLater(r, k, ToolAtPlace(nodes, x), o);
    }
  }

  lemma TurnsLater(r: Run, k: nat, o: Owner, nodes: seq<Node>)
    requires k < |r.events| && TurnsAre(r, k, o, nodes) && !Says(r, k, o)
    ensures TurnsAre(r, k + 1, o, nodes)
  {
    hide HasTurn, Says;
  }

  lemma RowsLater(r: Run, k: nat, o: Owner, nodes: seq<Node>)
    requires k < |r.events| && RowsOk(r, k, o, nodes) && Quiet(r, k, o)
    ensures RowsOk(r, k + 1, o, nodes)
  {
    hide ToolRowsOk, RowsAscend, TurnsAre, Lands, Says, ErrorAt;
    ToolRowsLater(r, k, o, nodes);
    if o.ByFrame? {
      TurnsLater(r, k, o, nodes);
    }
  }

  lemma Untipped(r: Run, k: nat, bound: nat, kids: Kids)
    requires k <= |r.events| && Under(r, bound, kids.nodes) && bound < k
    ensures Tipped(r, k, kids)
  {
    hide Stands, ToolAtPlace, Entry, TipIs;
  }

  lemma UnderMore(r: Run, bound: nat, bound': nat, nodes: seq<Node>)
    requires Under(r, bound, nodes) && bound <= bound'
    ensures Under(r, bound', nodes)
  {
    hide Stands, ToolAtPlace, Entry;
  }

  lemma KidsLater(r: Run, k: nat, bound: nat, bound': nat, o: Owner, kids: Kids)
    requires k < |r.events| && KidsNeat(r, k, bound, o, kids) && Quiet(r, k, o) && bound <= bound' && bound <= k
    ensures KidsNeat(r, k + 1, bound', o, kids)
  {
    hide RowsOk, Under, Tipped, GroupLast, GroupsValid, Quiet;
    RowsLater(r, k, o, kids.nodes);
    Untipped(r, k + 1, bound, kids);
    UnderMore(r, bound, bound', kids.nodes);
  }

  // ----- The event is a tool call of the list's own -----------------------------------------------------

  lemma NewMark(r: Run, k: nat)
    requires k < |r.events| && IsTool(r.events[k])
    ensures MarkIs(r, k + 1, NewTool(r.events[k], k)) && NewTool(r.events[k], k).at == k && r.events[k].ToolUse?
    ensures forall o :: !ErrorAt(r, k, o) && !Says(r, k, o)
  {
    hide Fails;
  }

  lemma MarksNextCall(r: Run, k: nat, o: Owner, nodes: seq<Node>)
    requires k < |r.events| && ToolsAre(r, k, o, nodes) && MarksAre(r, k, nodes) && !ErrorAt(r, k, o)
    ensures MarksAre(r, k + 1, nodes)
  {
    hide MarkIs, Stands, ToolAtPlace, ErrorAt, ToolSpot, IsTool;
    forall x | Stands(nodes, x) ensures MarkIs(r, k + 1, ToolAtPlace(nodes, x)) {
      assert HasTool(nodes, ToolAtPlace(nodes, x).at);
      MarkLater(r, k, ToolAtPlace(nodes, x), o);
    }
  }

  lemma AttachTools(r: Run, k: nat, o: Owner, kids: Kids, tool: Tool, turn: Option<string>)
    requires k < |r.events| && GroupsValid(kids) && ToolsAre(r, k, o, kids.nodes) && tool.at == k && Lands(r, k, o)
    ensures ToolsAre(r, k + 1, o, AttachTool(kids, tool, turn).nodes)
  {
    Attaches(kids, tool, turn);
    hide HasTool, Attached, AttachTool, NewPlace, Lands, GroupsValid;
    forall t: nat ensures HasTool(AttachTool(kids, tool, turn).nodes, t) <==> t < k + 1 && Lands(r, t, o) {
      AttachHas(kids, tool, turn, AttachTool(kids, tool, turn).nodes, NewPlace(kids, turn), t);
    }
  }

  lemma AttachTurnsAre(r: Run, k: nat, o: Owner, kids: Kids, tool: Tool, turn: Option<string>)
    requires k < |r.events| && GroupsValid(kids) && TurnsAre(r, k + 1, o, kids.nodes)
    ensures TurnsAre(r, k + 1, o, AttachTool(kids, tool, turn).nodes)
  {
    hide HasTurn, AttachTool, Says, GroupsValid;
    forall t: nat ensures HasTurn(AttachTool(kids, tool, turn).nodes, t) <==> HasTurn(kids.nodes, t) {
      AttachTurns(kids, tool, turn, t);
    }
  }

  lemma KidsParts(r: Run, k: nat, bound: nat, o: Owner, kids: Kids)
    requires k <= |r.events| && KidsNeat(r, k, bound, o, kids)
    ensures GroupsValid(kids) && Under(r, bound, kids.nodes) && Tipped(r, k, kids) && GroupLast(kids)
    ensures ToolsAre(r, k, o, kids.nodes) && ToolsAscend(kids.nodes) && Clustered(r, kids.nodes) && MarksAre(r, k, kids.nodes)
    ensures RowsAscend(r, kids.nodes) && (o.ByFrame? ==> TurnsAre(r, k, o, kids.nodes))
  {
    hide GroupsValid, Under, Tipped, GroupLast, ToolsAre, ToolsAscend, Clustered, MarksAre, RowsAscend, TurnsAre;
  }

  lemma KidsTogether(r: Run, k: nat, bound: nat, o: Owner, kids: Kids)
    requires k <= |r.events| && GroupsValid(kids) && Under(r, bound, kids.nodes) && Tipped(r, k, kids) && GroupLast(kids)
    requires ToolsAre(r, k, o, kids.nodes) && ToolsAscend(kids.nodes) && Clustered(r, kids.nodes) && MarksAre(r, k, kids.nodes)
    requires RowsAscend(r, kids.nodes) && (o.ByFrame? ==> TurnsAre(r, k, o, kids.nodes))
    ensures KidsNeat(r, k, bound, o, kids)
  {
    hide GroupsValid, Under, Tipped, GroupLast, ToolsAre, ToolsAscend, Clustered, MarksAre, RowsAscend, TurnsAre;
  }

  lemma UnderIs(r: Run, bound: nat, nodes: seq<Node>)
    requires forall c | 0 <= c < |nodes| :: Entry(r, nodes[c]) <= bound
    requires forall x | Stands(nodes, x) :: ToolAtPlace(nodes, x).at <= bound
    ensures Under(r, bound + 1, nodes)
  {
    hide Entry, Stands, ToolAtPlace;
  }

  lemma KidsGainTool(r: Run, k: nat, bound: nat, o: Owner, kids: Kids)
    requires k < |r.events| && KidsNeat(r, k, bound, o, kids) && Lands(r, k, o) && bound <= k && r.events[k].ToolUse?
    ensures GroupsValid(kids) && KidsNeat(r, k + 1, k + 1, o, AttachTool(kids, NewTool(r.events[k], k), r.events[k].uuid))
  {
    hide *;
    LandsTool(r, k, o);
    var tool, turn := NewTool(r.events[k], k), r.events[k].uuid;
    KidsParts(r, k, bound, o, kids);
    NewMark(r, k);
    UnderMore(r, bound, k, kids.nodes);
    AttachTools(r, k, o, kids, tool, turn);
    AttachAscends(r, k, kids, tool, turn);
    AttachClusters(r, k, kids, tool, turn);
    AttachEntries(r, k, kids, tool, turn);
    AttachTips(r, k, kids, tool, turn);
    MarksNextCall(r, k, o, kids.nodes);
    AttachMarks(r, k, kids, tool, turn);
    if o.ByFrame? {
      TurnsLater(r, k, o, kids.nodes);
      AttachTurnsAre(r, k, o, kids, tool, turn);
    }
    UnderIs(r, k, AttachTool(kids, tool, turn).nodes);
    KidsTogether(r, k + 1, k + 1, o, AttachTool(kids, tool, turn));
  }

  lemma LandsTool(r: Run, k: nat, o: Owner)
    requires k < |r.events| && Lands(r, k, o)
    ensures IsTool(r.events[k]) && ToolSpot(r, k) == o
  {
    hide ToolSpot, IsTool;
  }

  // ----- A row that is no tool call ------------------------------------------------------------------------

  predicate Plain(node: Node) {
    node.SkillNode? || node.TurnNode?
  }

  lemma SamePlaces(nodes: seq<Node>, node: Node)
    requires Plain(node)
    ensures forall x :: Stands(nodes + [node], x) <==> Stands(nodes, x)
    ensures forall x | Stands(nodes, x) :: ToolAtPlace(nodes + [node], x) == ToolAtPlace(nodes, x)
  {
  }

  lemma SameTools(r: Run, k: nat, o: Owner, nodes: seq<Node>, node: Node)
    requires k <= |r.events| && ToolRowsOk(r, k, o, nodes) && Plain(node)
    ensures ToolRowsOk(r, k, o, nodes + [node])
  {
    SamePlaces(nodes, node);
    var after := nodes + [node];
    hide Stands, ToolAtPlace, Lands, MarkIs, Before, NextInGroup;
    forall t: nat ensures HasTool(after, t) <==> HasTool(nodes, t) {
      if HasTool(nodes, t) {
        var x :| Stands(nodes, x) && ToolAtPlace(nodes, x).at == t;
        assert Stands(after, x);
      }
    }
    forall x, y | Parallel(r, after, x, y) ensures NextInGroup(x, y) {
      assert Parallel(r, nodes, x, y);
    }
  }

  lemma PlusUnder(r: Run, bound: nat, nodes: seq<Node>, node: Node)
    requires Under(r, bound, nodes) && Plain(node) && bound <= Entry(r, node) && RowsAscend(r, nodes)
    ensures Under(r, Entry(r, node) + 1, nodes + [node]) && RowsAscend(r, nodes + [node])
  {
    SamePlaces(nodes, node);
    hide Stands, ToolAtPlace, Entry;
  }

  lemma PlusTurns(nodes: seq<Node>, node: Node, t: nat)
    ensures HasTurn(nodes + [node], t) <==> HasTurn(nodes, t) || (node.TurnNode? && node.at == t)
  {
    var after := nodes + [node];
    if HasTurn(nodes, t) {
      var c :| 0 <= c < |nodes| && nodes[c].TurnNode? && nodes[c].at == t;
      assert after[c] == nodes[c];
    }
    assert after[|nodes|] == node;
  }

  lemma SkillTurns(r: Run, k: nat, o: Owner, nodes: seq<Node>, node: Node)
    requires k <= |r.events| && TurnsAre(r, k, o, nodes) && !node.TurnNode?
    ensures TurnsAre(r, k, o, nodes + [node])
  {
    hide HasTurn, Says;
    forall t: nat ensures HasTurn(nodes + [node], t) <==> HasTurn(nodes, t) {
      PlusTurns(nodes, node, t);
    }
  }

  lemma OwnTurns(r: Run, k: nat, o: Owner, nodes: seq<Node>, node: Node)
    requires k < |r.events| && TurnsAre(r, k, o, nodes) && node.TurnNode? && node.at == k && Says(r, k, o)
    ensures TurnsAre(r, k + 1, o, nodes + [node])
  {
    hide HasTurn, Says;
    forall t: nat ensures HasTurn(nodes + [node], t) <==> HasTurn(nodes, t) || t == k {
      PlusTurns(nodes, node, t);
    }
  }

  /** The bookkeeping after a row that the grouping does not see, or that resets it. */
  predicate Kept(kids: Kids, after: Kids, node: Node) {
    after.nodes == kids.nodes + [node] && (after.lastGroup == kids.lastGroup || after.lastGroup.None?)
  }

  lemma KeptValid(kids: Kids, after: Kids, node: Node)
    requires Kept(kids, after, node) && Plain(node) && GroupsValid(kids) && GroupLast(kids)
    ensures GroupsValid(after) && GroupLast(after)
  {
    SamePlaces(kids.nodes, node);
    hide Stands, ToolAtPlace;
  }

  /** A skill closes, or is flushed, into the list. */
  lemma SkillRows(r: Run, k: nat, bound: nat, o: Owner, nodes: seq<Node>, node: Node)
    requires k <= |r.events| && RowsOk(r, k, o, nodes) && Under(r, bound, nodes)
    requires node.SkillNode? && bound <= Entry(r, node)
    ensures RowsOk(r, k, o, nodes + [node]) && Under(r, Entry(r, node) + 1, nodes + [node])
  {
    hide ToolRowsOk, RowsAscend, TurnsAre, Under, Entry;
    assert Plain(node);
    SameTools(r, k, o, nodes, node);
    PlusUnder(r, bound, nodes, node);
    if o.ByFrame? {
      SkillTurns(r, k, o, nodes, node);
    }
  }

  lemma KidsGainSkill(r: Run, k: nat, bound: nat, o: Owner, kids: Kids, after: Kids, node: Node)
    requires k <= |r.events| && KidsNeat(r, k, bound, o, kids) && Kept(kids, after, node)
    requires node.SkillNode? && bound <= Entry(r, node) < k
    ensures KidsNeat(r, k, Entry(r, node) + 1, o, after)
  {
    hide RowsOk, Under, Entry, Tipped, GroupLast, GroupsValid;
    assert Plain(node);
    SkillRows(r, k, bound, o, kids.nodes, node);
    KeptValid(kids, after, node);
    PlusUntipped(r, k, bound, kids, after, node);
  }

  lemma PlusUntipped(r: Run, k: nat, bound: nat, kids: Kids, after: Kids, node: Node)
    requires k <= |r.events| && Kept(kids, after, node) && Plain(node) && Under(r, bound, kids.nodes) && bound < k
    ensures Tipped(r, k, after)
  {
    SamePlaces(kids.nodes, node);
    hide Stands, ToolAtPlace, Entry, TipIs;
  }

  /** The skill that is active says something. */
  lemma KidsGainTurn(r: Run, k: nat, o: Owner, kids: Kids, node: Node)
    requires k < |r.events| && KidsNeat(r, k, k, o, kids) && node.TurnNode? && node.at == k && Says(r, k, o)
    ensures KidsNeat(r, k + 1, k + 1, o, Slip(kids, node))
  {
    hide *;
    TurnPlain(r, k, o, kids, node);
    KidsParts(r, k, k, o, kids);
    ToolRowsIs(r, k, o, kids.nodes);
    ToolRowsLater(r, k, o, kids.nodes);
    SameTools(r, k + 1, o, kids.nodes, node);
    ToolRowsIs(r, k + 1, o, kids.nodes + [node]);
    PlusUnder(r, k, kids.nodes, node);
    PlusUntipped(r, k + 1, k, kids, Slip(kids, node), node);
    KeptValid(kids, Slip(kids, node), node);
    if o.ByFrame? {
      OwnTurns(r, k, o, kids.nodes, node);
    }
    KidsTogether(r, k + 1, k + 1, o, Slip(kids, node));
  }

  lemma TurnPlain(r: Run, k: nat, o: Owner, kids: Kids, node: Node)
    requires k < |r.events| && node.TurnNode? && node.at == k && Says(r, k, o)
    ensures Plain(node) && Entry(r, node) == k && Kept(kids, Slip(kids, node), node) && Slip(kids, node).nodes == kids.nodes + [node]
    ensures !Lands(r, k, o) && !ErrorAt(r, k, o)
  {
  }

  lemma ToolRowsIs(r: Run, k: nat, o: Owner, nodes: seq<Node>)
    requires k <= |r.events|
    ensures ToolRowsOk(r, k, o, nodes) <==>
            ToolsAre(r, k, o, nodes) && ToolsAscend(nodes) && Clustered(r, nodes) && MarksAre(r, k, nodes)
  {
    hide ToolsAre, ToolsAscend, Clustered, MarksAre;
  }

  // ----- An error result marks a row -------------------------------------------------------------------------

  /** The search found the latest row with the id, if there is one. */
  ghost predicate Latest(nodes: seq<Node>, found: Option<Place>, id: Option<string>) {
    (found.Some? ==> Stands(nodes, found.value) && Truthy(id) && Some(ToolAtPlace(nodes, found.value).id) == id)
    && (Truthy(id) ==> forall x | Stands(nodes, x) && Some(ToolAtPlace(nodes, x).id) == id :: found.Some? && !Before(found.value, x))
  }

  lemma MarkedPlaces(nodes: seq<Node>, place: Place)
    requires Stands(nodes, place)
    ensures forall x :: Stands(Marked(nodes, place), x) <==> Stands(nodes, x)
    ensures forall x | Stands(nodes, x) ::
              ToolAtPlace(Marked(nodes, place), x)
              == if x == place then ToolAtPlace(nodes, x).(status := Failed) else ToolAtPlace(nodes, x)
  {
  }

  lemma MarkedShape(r: Run, nodes: seq<Node>, place: Place)
    requires Stands(nodes, place)
    ensures |Marked(nodes, place)| == |nodes|
    ensures forall c | 0 <= c < |nodes| ::
              var a, b := nodes[c], Marked(nodes, place)[c];
              Entry(r, a) == Entry(r, b) && (a.TurnNode? || b.TurnNode? ==> a == b)
              && a.GroupNode? == b.GroupNode? && (a.GroupNode? ==> |a.tools| == |b.tools|)
  {
    hide Rank, IsDispatch;
  }

  lemma OneFirst(nodes: seq<Node>, x: Place, y: Place)
    requires Stands(nodes, x) && Stands(nodes, y) && x != y && !Before(x, y)
    ensures Before(y, x)
  {
  }

  /** The result fails the call it found. */
  lemma FoundFails(r: Run, k: nat, o: Owner, nodes: seq<Node>, place: Place)
    requires k < |r.events| && r.events[k].ToolResult? && ToolRowsOk(r, k, o, nodes) && ErrorAt(r, k, o)
    requires Latest(nodes, Some(place), r.events[k].matched)
    ensures var t := ToolAtPlace(nodes, place).at;
            t < |r.events| && IsTool(r.events[t]) && Fails(r, k, t)
  {
    hide ErrorAt, Stands, ToolAtPlace, ToolSpot, IsTool, Before, Clustered, FailedBy;
    var tool := ToolAtPlace(nodes, place);
    assert MarkIs(r, k, tool) && HasTool(nodes, tool.at);
    forall m | tool.at < m < k ensures !CallsAs(r, m, tool.id, o) {
      if CallsAs(r, m, tool.id, o) {
        assert HasTool(nodes, m);
        var x :| Stands(nodes, x) && ToolAtPlace(nodes, x).at == m;
        assert MarkIs(r, k, ToolAtPlace(nodes, x));
        OneFirst(nodes, place, x);
      }
    }
  }

  /** It fails no other call of the list. */
  lemma OnlyFound(r: Run, k: nat, o: Owner, nodes: seq<Node>, found: Option<Place>, x: Place)
    requires k < |r.events| && ToolRowsOk(r, k, o, nodes) && r.events[k].ToolResult? && Latest(nodes, found, r.events[k].matched)
    requires Stands(nodes, x) && ToolAtPlace(nodes, x).at < |r.events| && IsTool(r.events[ToolAtPlace(nodes, x).at])
    requires Fails(r, k, ToolAtPlace(nodes, x).at)
    ensures found == Some(x)
  {
    hide ErrorAt, Stands, ToolAtPlace, ToolSpot, IsTool, Before, Clustered, FailedBy;
    var t := ToolAtPlace(nodes, x).at;
    assert MarkIs(r, k, ToolAtPlace(nodes, x)) && HasTool(nodes, t);
    assert found.Some?;
    var y := found.value;
    assert MarkIs(r, k, ToolAtPlace(nodes, y)) && HasTool(nodes, ToolAtPlace(nodes, y).at);
    assert CallsAs(r, ToolAtPlace(nodes, y).at, ToolAtPlace(nodes, x).id, o);
    if y != x {
      OneFirst(nodes, y, x);
    }
  }

  lemma MarkStep(r: Run, k: nat, tool: Tool, fails: bool)
    requires k < |r.events| && MarkIs(r, k, tool) && fails == Fails(r, k, tool.at)
    ensures MarkIs(r, k + 1, if fails then tool.(status := Failed) else tool)
  {
    hide FailedBy, IsTool, Fails;
    FailedStep(r, k, tool.at);
  }

  lemma MarkedAre(r: Run, k: nat, o: Owner, nodes: seq<Node>, place: Place)
    requires k < |r.events| && r.events[k].ToolResult? && ToolRowsOk(r, k, o, nodes) && ErrorAt(r, k, o)
    requires Stands(nodes, place) && Latest(nodes, Some(place), r.events[k].matched)
    ensures MarksAre(r, k + 1, Marked(nodes, place))
  {
    hide Stands, ToolAtPlace, Marked, Latest, MarkIs, ErrorAt, Before, Fails, ToolsAre, Clustered, ToolsAscend;
    MarkedPlaces(nodes, place);
    FoundFails(r, k, o, nodes, place);
    forall x | Stands(nodes, x) ensures MarkIs(r, k + 1, ToolAtPlace(Marked(nodes, place), x)) {
      var tool := ToolAtPlace(nodes, x);
      MarkIsTool(r, k, tool);
      if Fails(r, k, tool.at) {
        OnlyFound(r, k, o, nodes, Some(place), x);
      }
      MarkStep(r, k, tool, Fails(r, k, tool.at));
    }
  }

  lemma MarkIsTool(r: Run, k: nat, tool: Tool)
    requires k <= |r.events| && MarkIs(r, k, tool)
    ensures tool.at < |r.events| && IsTool(r.events[tool.at])
  {
  }

  /** No row has the id: no call of the list fails. */
  lemma NoneFound(r: Run, k: nat, o: Owner, nodes: seq<Node>)
    requires k < |r.events| && ToolRowsOk(r, k, o, nodes) && r.events[k].ToolResult? && Latest(nodes, None, r.events[k].matched)
    ensures MarksAre(r, k + 1, nodes)
  {
    hide Stands, ToolAtPlace, Latest, MarkIs, ErrorAt, Before, Fails, ToolsAre, Clustered, ToolsAscend;
    forall x | Stands(nodes, x) ensures MarkIs(r, k + 1, ToolAtPlace(nodes, x)) {
      var tool := ToolAtPlace(nodes, x);
      MarkIsTool(r, k, tool);
      if Fails(r, k, tool.at) {
        OnlyFound(r, k, o, nodes, None, x);
      }
      MarkStep(r, k, tool, Fails(r, k, tool.at));
    }
  }

  lemma MarkedHas(nodes: seq<Node>, place: Place, t: nat)
    requires Stands(nodes, place)
    ensures HasTool(Marked(nodes, place), t) <==> HasTool(nodes, t)
  {
    MarkedPlaces(nodes, place);
    hide Stands, ToolAtPlace, Marked;
    if HasTool(nodes, t) {
      var x :| Stands(nodes, x) && ToolAtPlace(nodes, x).at == t;
      assert Stands(Marked(nodes, place), x);
    }
  }

  lemma MarkedTurns(r: Run, nodes: seq<Node>, place: Place, t: nat)
    requires Stands(nodes, place)
    ensures HasTurn(Marked(nodes, place), t) <==> HasTurn(nodes, t)
  {
    MarkedShape(r, nodes, place);
    hide Stands, Marked, Entry;
    if HasTurn(nodes, t) {
      var c :| 0 <= c < |nodes| && nodes[c].TurnNode? && nodes[c].at == t;
      assert Marked(nodes, place)[c] == nodes[c];
    }
  }

  /** Marking changes no order, no group and no row. */
  lemma MarkedOrder(r: Run, bound: nat, nodes: seq<Node>, place: Place)
    requires Stands(nodes, place) && ToolsAscend(nodes) && Clustered(r, nodes) && RowsAscend(r, nodes) && Under(r, bound, nodes)
    ensures var after := Marked(nodes, place);
            ToolsAscend(after) && Clustered(r, after) && RowsAscend(r, after) && Under(r, bound, after)
  {
    var after := Marked(nodes, place);
    MarkedPlaces(nodes, place);
    MarkedShape(r, nodes, place);
    hide Stands, ToolAtPlace, Marked, Entry, Before, NextInGroup;
    forall x, y | Parallel(r, after, x, y) ensures NextInGroup(x, y) {
      assert Parallel(r, nodes, x, y);
    }
  }

  lemma MarkedTips(r: Run, k: nat, kids: Kids, place: Place)
    requires k <= |r.events| && Stands(kids.nodes, place) && GroupsValid(kids) && GroupLast(kids)
    ensures GroupsValid(kids.(nodes := Marked(kids.nodes, place))) && GroupLast(kids.(nodes := Marked(kids.nodes, place)))
  {
    MarkedPlaces(kids.nodes, place);
    MarkedShape(r, kids.nodes, place);
    hide Stands, ToolAtPlace, Marked, Entry;
  }

  lemma MarkedToolsAre(r: Run, k: nat, o: Owner, nodes: seq<Node>, place: Place)
    requires k < |r.events| && Stands(nodes, place) && ToolsAre(r, k, o, nodes) && !Lands(r, k, o)
    ensures ToolsAre(r, k + 1, o, Marked(nodes, place))
  {
    hide HasTool, Lands, Marked, Stands;
    forall t: nat ensures HasTool(Marked(nodes, place), t) <==> HasTool(nodes, t) {
      MarkedHas(nodes, place, t);
    }
  }

  lemma MarkedTurnsAre(r: Run, k: nat, o: Owner, nodes: seq<Node>, place: Place)
    requires k < |r.events| && Stands(nodes, place) && TurnsAre(r, k, o, nodes) && !Says(r, k, o)
    ensures TurnsAre(r, k + 1, o, Marked(nodes, place))
  {
    hide HasTurn, Says, Marked, Stands;
    forall t: nat ensures HasTurn(Marked(nodes, place), t) <==> HasTurn(nodes, t) {
      MarkedTurns(r, nodes, place, t);
    }
  }

  /** An error result looked up in the list marks the row the search found. */
  lemma KidsMarked(r: Run, k: nat, bound: nat, o: Owner, kids: Kids, place: Place)
    requires k < |r.events| && KidsNeat(r, k, bound, o, kids) && bound <= k && r.events[k].ToolResult? && ErrorAt(r, k, o)
    requires Latest(kids.nodes, Some(place), r.events[k].matched)
    ensures Stands(kids.nodes, place) && KidsNeat(r, k + 1, bound, o, kids.(nodes := Marked(kids.nodes, place)))
  {
    hide *;
    FoundThere(kids.nodes, place, r.events[k].matched);
    var after := kids.(nodes := Marked(kids.nodes, place));
    ResultOnly(r, k, o);
    KidsParts(r, k, bound, o, kids);
    ToolRowsIs(r, k, o, kids.nodes);
    MarkedOrder(r, bound, kids.nodes, place);
    MarkedTips(r, k, kids, place);
    MarkedToolsAre(r, k, o, kids.nodes, place);
    MarkedAre(r, k, o, kids.nodes, place);
    Untipped(r, k + 1, bound, after);
    if o.ByFrame? {
      MarkedTurnsAre(r, k, o, kids.nodes, place);
    }
    KidsTogether(r, k + 1, bound, o, after);
  }

  lemma FoundThere(nodes: seq<Node>, place: Place, id: Option<string>)
    requires Latest(nodes, Some(place), id)
    ensures Stands(nodes, place)
  {
    assert Some(place).value == place;
  }

  lemma ResultOnly(r: Run, k: nat, o: Owner)
    requires k < |r.events| && r.events[k].ToolResult?
    ensures !Lands(r, k, o) && !Says(r, k, o)
  {
  }

  /** A result that closes no skill, looked up in the list. */
  lemma KidsGainResult(r: Run, k: nat, bound: nat, o: Owner, kids: Kids, found: Option<Place>)
    requires k < |r.events| && KidsNeat(r, k, bound, o, kids) && bound <= k && r.events[k].ToolResult?
    requires ResultSpot(r, k) == o && LastWith(r.events, OpenAt(r.events, k), r.events[k].matched) < 0
    requires Latest(kids.nodes, found, r.events[k].matched)
    ensures KidsNeat(r, k + 1, bound, o, MarkKids(kids, found, r.events[k]))
  {
    hide *;
    ResultOnly(r, k, o);
    MarkKidsIs(kids, found, r.events[k]);
    ErrorIs(r, k, o);
    if found.Some? && r.events[k].isError {
      assert found == Some(found.value);
      FoundThere(kids.nodes, found.value, r.events[k].matched);
      KidsMarked(r, k, bound, o, kids, found.value);
    } else if r.events[k].isError {
      assert found == None;
      KidsParts(r, k, bound, o, kids);
      ToolRowsIs(r, k, o, kids.nodes);
      NoneFound(r, k, o, kids.nodes);
      ToolsLater(r, k, o, kids.nodes);
      Untipped(r, k + 1, bound, kids);
      if o.ByFrame? {
        TurnsLater(r, k, o, kids.nodes);
      }
      KidsTogether(r, k + 1, bound, o, kids);
    } else {
      QuietIs(r, k, o);
      KidsLater(r, k, bound, bound, o, kids);
    }
  }

  lemma MarkKidsIs(kids: Kids, found: Option<Place>, e: CostEvent)
    requires e.ToolResult?
    ensures MarkKids(kids, found, e) == if found.Some? && Stands(kids.nodes, found.value) && e.isError then kids.(nodes := Marked(kids.nodes, found.value)) else kids
  {
  }

  lemma ErrorIs(r: Run, k: nat, o: Owner)
    requires k < |r.events| && r.events[k].ToolResult?
    requires ResultSpot(r, k) == o && LastWith(r.events, OpenAt(r.events, k), r.events[k].matched) < 0
    ensures ErrorAt(r, k, o) <==> r.events[k].isError
  {
    hide ResultSpot, LastWith, OpenAt;
  }

  lemma QuietIs(r: Run, k: nat, o: Owner)
    requires k < |r.events|
    ensures Quiet(r, k, o) <==> !Lands(r, k, o) && !ErrorAt(r, k, o) && (o.ByFrame? ==> !Says(r, k, o))
  {
    hide Lands, Says, ErrorAt;
  }

  lemma ToolsLater(r: Run, k: nat, o: Owner, nodes: seq<Node>)
    requires k < |r.events| && ToolsAre(r, k, o, nodes) && !Lands(r, k, o)
    ensures ToolsAre(r, k + 1, o, nodes)
  {
    hide HasTool, Lands;
  }

  // ----- Skills before and after their time ------------------------------------------------------------------

  /** No event up to its own dispatch lands under a skill. */
  lemma NothingBefore(r: Run, k: nat, t: nat)
    requires t <= k < |r.events| && IsDispatch(r.events[k])
    ensures !Lands(r, t, ByFrame(k)) && !Says(r, t, ByFrame(k))
  {
    hide OpenAt, ActiveAt, PhaseAt, Marks;
    if Says(r, t, ByFrame(k)) {
      OwnerBefore(r, t);
    }
  }

  lemma NewList(r: Run, k: nat)
    requires k < |r.events| && IsDispatch(r.events[k])
    ensures KidsNeat(r, k + 1, k + 1, ByFrame(k), NoKids)
  {
    hide Lands, Says, MarkIs;
    forall t: nat | t < k + 1 ensures !Lands(r, t, ByFrame(k)) && !Says(r, t, ByFrame(k)) {
      NothingBefore(r, k, t);
    }
  }

  lemma EmptyList(r: Run, o: Owner)
    ensures KidsNeat(r, 0, 0, o, NoKids)
  {
    hide Lands, Says, MarkIs;
  }

  /** Nor any once it is neither in flight nor active. */
  lemma NothingAfter(r: Run, i: nat, k: nat, t: nat)
    requires i < k <= t < |r.events| && IsDispatch(r.events[i])
    requires i !in OpenAt(r.events, k) && ActiveAt(r, k) != Some(i)
    ensures Quiet(r, t, ByFrame(i))
  {
    ClosedStaysClosed(r, i, k, t);
    ClosedStaysClosed(r, i, k, t + 1);
    NotOwner(r, i, t);
    hide OpenAt, ActiveAt, PhaseAt, TurnOwner, Parks, LastWith;
  }

  lemma {:induction false} RowsSettled(r: Run, i: nat, k: nat, n: nat, nodes: seq<Node>)
    requires i < k <= n <= |r.events| && IsDispatch(r.events[i])
    requires i !in OpenAt(r.events, k) && ActiveAt(r, k) != Some(i) && RowsOk(r, k, ByFrame(i), nodes)
    ensures RowsOk(r, n, ByFrame(i), nodes)
    decreases n
  {
    hide *;
    if k < n {
      RowsSettled(r, i, k, n - 1, nodes);
      NothingAfter(r, i, k, n - 1);
      RowsLater(r, n - 1, ByFrame(i), nodes);
    }
  }

  // ----- The tool rows of a list, in another list ------------------------------------------------------------

  predicate IsInline(node: Node) {
    node.ToolNode? || node.GroupNode?
  }

  /** The tool rows of `nodes` are those of `some`, in the same order: row i of
      `some` is row idx[i] of `nodes`. */
  ghost predicate Shown(nodes: seq<Node>, some: seq<Node>, idx: seq<nat>) {
    |idx| == |some|
    && (forall i | 0 <= i < |some| && IsInline(some[i]) :: idx[i] < |nodes| && nodes[idx[i]] == some[i])
    && (forall i, j | 0 <= i < j < |some| && IsInline(some[i]) && IsInline(some[j]) :: idx[i] < idx[j])
    && (forall c | 0 <= c < |nodes| && IsInline(nodes[c]) :: exists i :: 0 <= i < |some| && IsInline(some[i]) && idx[i] == c)
  }

  function Via(idx: seq<nat>, x: Place): Place
    requires x.n < |idx|
  {
    x.(n := idx[x.n])
  }

  lemma ShownAt(nodes: seq<Node>, some: seq<Node>, idx: seq<nat>, x: Place)
    requires Shown(nodes, some, idx) && Stands(some, x)
    ensures x.n < |idx| && Stands(nodes, Via(idx, x)) && ToolAtPlace(nodes, Via(idx, x)) == ToolAtPlace(some, x)
    ensures IsInline(some[x.n])
  {
  }

  lemma ShownOrder(nodes: seq<Node>, some: seq<Node>, idx: seq<nat>, x: Place, y: Place)
    requires Shown(nodes, some, idx) && Stands(some, x) && Stands(some, y) && x.n < |idx| && y.n < |idx|
    requires IsInline(some[x.n]) && IsInline(some[y.n])
    ensures Before(x, y) ==> Before(Via(idx, x), Via(idx, y))
    ensures NextInGroup(Via(idx, x), Via(idx, y)) ==> NextInGroup(x, y)
  {
    hide Stands, IsInline;
  }

  lemma ShownHas(nodes: seq<Node>, some: seq<Node>, idx: seq<nat>, t: nat)
    requires Shown(nodes, some, idx)
    ensures HasTool(some, t) <==> HasTool(nodes, t)
  {
    if HasTool(nodes, t) {
      var x :| Stands(nodes, x) && ToolAtPlace(nodes, x).at == t;
      assert IsInline(nodes[x.n]);
      var i :| 0 <= i < |some| && IsInline(some[i]) && idx[i] == x.n;
      assert some[i] == nodes[x.n];
      var y := x.(n := i);
      assert Stands(some, y) && ToolAtPlace(some, y).at == t;
    }
    hide Stands, ToolAtPlace, IsInline;
    if HasTool(some, t) {
      var x :| Stands(some, x) && ToolAtPlace(some, x).at == t;
      ShownAt(nodes, some, idx, x);
    }
  }

  lemma ShownRows(r: Run, k: nat, o: Owner, nodes: seq<Node>, some: seq<Node>, idx: seq<nat>)
    requires k <= |r.events| && ToolRowsOk(r, k, o, nodes) && Shown(nodes, some, idx)
    ensures ToolRowsOk(r, k, o, some)
  {
    hide *;
    ToolRowsIs(r, k, o, nodes);
    ShownTools(r, k, o, nodes, some, idx);
    ShownAscends(nodes, some, idx);
    ShownClusters(r, nodes, some, idx);
    ShownMarks(r, k, nodes, some, idx);
    ToolRowsIs(r, k, o, some);
  }

  lemma ShownTools(r: Run, k: nat, o: Owner, nodes: seq<Node>, some: seq<Node>, idx: seq<nat>)
    requires k <= |r.events| && ToolsAre(r, k, o, nodes) && Shown(nodes, some, idx)
    ensures ToolsAre(r, k, o, some)
  {
    hide HasTool, Lands, Shown;
    forall t: nat ensures HasTool(some, t) <==> HasTool(nodes, t) {
      ShownHas(nodes, some, idx, t);
    }
  }

  lemma ShownAscends(nodes: seq<Node>, some: seq<Node>, idx: seq<nat>)
    requires ToolsAscend(nodes) && Shown(nodes, some, idx)
    ensures ToolsAscend(some)
  {
    hide Stands, ToolAtPlace, Before, Via, IsInline, Shown;
    forall x, y | Stands(some, x) && Stands(some, y) && Before(x, y) ensures ToolAtPlace(some, x).at < ToolAtPlace(some, y).at {
      ShownAt(nodes, some, idx, x);
      ShownAt(nodes, some, idx, y);
      ShownOrder(nodes, some, idx, x, y);
    }
  }

  lemma ShownClusters(r: Run, nodes: seq<Node>, some: seq<Node>, idx: seq<nat>)
    requires Clustered(r, nodes) && Shown(nodes, some, idx)
    ensures Clustered(r, some)
  {
    ShownGroups(nodes, some, idx);
    hide Stands, ToolAtPlace, NextInGroup, Via, IsInline, Shown;
    forall x, y | Parallel(r, some, x, y) ensures NextInGroup(x, y) {
      ShownAt(nodes, some, idx, x);
      ShownAt(nodes, some, idx, y);
      assert Parallel(r, nodes, Via(idx, x), Via(idx, y));
      ShownOrder(nodes, some, idx, x, y);
    }
  }

  lemma ShownGroups(nodes: seq<Node>, some: seq<Node>, idx: seq<nat>)
    requires Shown(nodes, some, idx)
    ensures forall c | 0 <= c < |some| && some[c].GroupNode? :: idx[c] < |nodes| && nodes[idx[c]] == some[c]
  {
  }

  lemma ShownMarks(r: Run, k: nat, nodes: seq<Node>, some: seq<Node>, idx: seq<nat>)
    requires k <= |r.events| && MarksAre(r, k, nodes) && Shown(nodes, some, idx)
    ensures MarksAre(r, k, some)
  {
    hide Stands, ToolAtPlace, MarkIs, Via, IsInline, Shown;
    forall x | Stands(some, x) ensures MarkIs(r, k, ToolAtPlace(some, x)) {
      ShownAt(nodes, some, idx, x);
    }
  }
}
