/**
 The nodes of the structure tree, how a node is attached to a list of children
 (in-place parallel grouping included), and what a well-formed node is.
 */
module Tree {
  import opened Options
  import opened Transcript
  import opened Matching
  import opened Attribution
  import opened Registry
  import opened Structure

  /** `at` is the index of the event a node comes from: a label of the model. */
  datatype Tool = Tool(at: nat, id: string, name: string, status: Status)

  datatype Node =
    | SkillNode(at: nat, name: string, subagent: bool, status: Status, tokens: Tokens, children: seq<Node>)
    | InlineNode(tokens: Tokens, children: seq<Node>)   // the "(direct turns)" row
    | ToolNode(tool: Tool)
    | GroupNode(tools: seq<Tool>)                       // tools fired in parallel
    | TurnNode(at: nat, tokens: Tokens)                 // one narration turn

  /** A children list with the bookkeeping of its last attachment. `lastGroup`
      is where the source keeps a reference to a group inside the list. */
  datatype Kids = Kids(nodes: seq<Node>, lastTurn: Option<string>, lastGroup: Option<nat>)

  const NoKids := Kids([], None, None)

  function Append(kids: Kids, node: Node, turn: Option<string>): Kids {
    Kids(kids.nodes + [node], turn, None)
  }

  /** The recorded group position points at a group. */
  predicate GroupsValid(kids: Kids) {
    kids.lastGroup.Some? ==> kids.lastGroup.value < |kids.nodes| && kids.nodes[kids.lastGroup.value].GroupNode?
  }

  /** A tool of the turn that attached last joins its group, or forms one with
      the tool just before it; anything else is appended. */
  function AttachTool(kids: Kids, tool: Tool, turn: Option<string>): Kids
    requires GroupsValid(kids)
  {
    var n := |kids.nodes|;
    if Truthy(turn) && kids.lastTurn == turn && kids.lastGroup.Some? then
      var g := kids.lastGroup.value;
      kids.(nodes := kids.nodes[g := GroupNode(kids.nodes[g].tools + [tool])])
    else if Truthy(turn) && kids.lastTurn == turn && n > 0 && kids.nodes[n - 1].ToolNode? then
      kids.(nodes := kids.nodes[n - 1 := GroupNode([kids.nodes[n - 1].tool, tool])], lastGroup := Some(n - 1))
    else Append(kids, ToolNode(tool), turn)
  }

  /** Added behind the bookkeeping's back, as narration and flushed skills are. */
  function Slip(kids: Kids, node: Node): Kids {
    kids.(nodes := kids.nodes + [node])
  }

  // ----- Labels -----------------------------------------------------------------

  datatype Label = SkillAt(at: nat) | ToolAt(at: nat)

  function ToolLabels(tools: seq<Tool>): multiset<Label> {
    if tools == [] then multiset{}
    else ToolLabels(tools[..|tools| - 1]) + multiset{ToolAt(tools[|tools| - 1].at)}
  }

  function Labels(node: Node): multiset<Label> {
    match node
    case SkillNode(at, _, _, _, _, children) => multiset{SkillAt(at)} + AllLabels(children)
    case InlineNode(_, children) => AllLabels(children)
    case ToolNode(tool) => multiset{ToolAt(tool.at)}
    case GroupNode(tools) => ToolLabels(tools)
    case TurnNode(_, _) => multiset{}
  }

  function AllLabels(nodes: seq<Node>): multiset<Label> {
    if nodes == [] then multiset{}
    else AllLabels(nodes[..|nodes| - 1]) + Labels(nodes[|nodes| - 1])
  }

  lemma AllLabelsSnoc(nodes: seq<Node>, node: Node)
    ensures AllLabels(nodes + [node]) == AllLabels(nodes) + Labels(node)
  {
    assert (nodes + [node])[..|nodes|] == nodes;
  }

  lemma {:induction false} AllLabelsUpdate(nodes: seq<Node>, g: nat, node: Node, extra: multiset<Label>)
    requires g < |nodes| && Labels(node) == Labels(nodes[g]) + extra
    ensures AllLabels(nodes[g := node]) == AllLabels(nodes) + extra
  {
    hide Labels;
    var n := |nodes| - 1;
    if g == n {
      assert nodes[g := node][..n] == nodes[..n];
    } else {
      AllLabelsUpdate(nodes[..n], g, node, extra);
      assert nodes[g := node][..n] == nodes[..n][g := node];
    }
  }

  /** Attaching loses and duplicates nothing. */
  lemma AttachLabels(kids: Kids, tool: Tool, turn: Option<string>)
    requires GroupsValid(kids)
    ensures AllLabels(AttachTool(kids, tool, turn).nodes) == AllLabels(kids.nodes) + multiset{ToolAt(tool.at)}
  {
    var n := |kids.nodes|;
    assert Labels(ToolNode(tool)) == multiset{ToolAt(tool.at)};
    hide AllLabels, Labels, ToolLabels;
    if Truthy(turn) && kids.lastTurn == turn && kids.lastGroup.Some? {
      var g := kids.lastGroup.value;
      GroupLabels(kids.nodes[g].tools, tool);
      AllLabelsUpdate(kids.nodes, g, GroupNode(kids.nodes[g].tools + [tool]), multiset{ToolAt(tool.at)});
    } else if Truthy(turn) && kids.lastTurn == turn && n > 0 && kids.nodes[n - 1].ToolNode? {
      PairLabels(kids.nodes[n - 1].tool, tool);
      AllLabelsUpdate(kids.nodes, n - 1, GroupNode([kids.nodes[n - 1].tool, tool]), multiset{ToolAt(tool.at)});
    } else {
      AllLabelsSnoc(kids.nodes, ToolNode(tool));
    }
  }

  lemma GroupLabels(tools: seq<Tool>, tool: Tool)
    ensures Labels(GroupNode(tools + [tool])) == Labels(GroupNode(tools)) + multiset{ToolAt(tool.at)}
  {
    assert (tools + [tool])[..|tools|] == tools;
  }

  lemma PairLabels(a: Tool, b: Tool)
    ensures Labels(GroupNode([a, b])) == Labels(ToolNode(a)) + multiset{ToolAt(b.at)}
  {
    assert [] + [a] == [a] && [a] + [b] == [a, b];
    GroupLabels([], a);
    GroupLabels([a], b);
  }

  // ----- Well-formed nodes --------------------------------------------------------

  /** Tokens of the skills among the children. */
  function SkillTokens(nodes: seq<Node>): Tokens {
    if nodes == [] then EmptyTokens
    else SkillTokens(nodes[..|nodes| - 1]).Plus(TokensIfSkill(nodes[|nodes| - 1]))
  }

  function TokensIfSkill(node: Node): Tokens {
    if node.SkillNode? then node.tokens else EmptyTokens
  }

  lemma SkillTokensSnoc(nodes: seq<Node>, node: Node)
    ensures SkillTokens(nodes + [node]) == SkillTokens(nodes).Plus(TokensIfSkill(node))
  {
    assert (nodes + [node])[..|nodes|] == nodes;
  }

  /** A tool row describes its event; it has failed only if some later error result names it. */
  ghost predicate ToolOk(r: Run, tool: Tool) {
    tool.at < |r.events| && IsTool(r.events[tool.at])
    && tool.id == FrameId(r.events[tool.at])
    && tool.name == GetOr(r.events[tool.at].name, "")
    && tool.status != Incomplete
    && (tool.status == Failed ==>
          exists j :: tool.at < j < |r.events| && Closes(r.events[j], tool.id) && r.events[j].isError)
  }

  /** Parallel tools were fired by one assistant message. */
  ghost predicate GroupOk(r: Run, tools: seq<Tool>) {
    |tools| >= 2
    && (forall a | 0 <= a < |tools| :: ToolOk(r, tools[a]))
    && (forall a | 0 <= a < |tools| :: SameUuid(r.events[tools[0].at], r.events[tools[a].at]))
  }

  /** The node stands where the stream puts it: under the frame `parent`, or at top level. */
  ghost predicate PlacedOk(r: Run, parent: Option<nat>, node: Node) {
    match node
    case SkillNode(at, _, _, _, _, _) => at < |r.events| && IsDispatch(r.events[at]) && ParentOf(r, at) == parent
    case ToolNode(tool) => ToolOk(r, tool) && ToolParent(r, tool.at) == parent
    case GroupNode(tools) => GroupOk(r, tools) && forall a | 0 <= a < |tools| :: ToolParent(r, tools[a].at) == parent
    case TurnNode(at, tokens) =>
      at < |r.events| && r.events[at].AssistantTurn? && tokens == UsageOf(r.events[at])
      && (parent.Some? ==> TurnOwner(r, at) == ByFrame(parent.value))
    case InlineNode(_, _) => false
  }

  /** A skill's row: named and marked as its events say, holding its own turns'
      usage plus its child skills', its children in their places. */
  ghost predicate NodeOk(r: Run, parent: Option<nat>, node: Node)
    decreases node
  {
    PlacedOk(r, parent, node)
    && (node.SkillNode? ==>
          node.name == SkillName(r.events[node.at])
          && node.subagent == (OpenAt(r.events, node.at) != [])
          && node.status == StatusOf(r.events, node.at)
          && node.tokens == OwnShare(r, |r.events|, ByFrame(node.at)).Plus(SkillTokens(node.children))
          && forall c | 0 <= c < |node.children| :: NodeOk(r, Some(node.at), node.children[c]))
  }

  /** The children of one skill (or of a bucket, with no parent). The tool
      attached last belongs to the last turn, and so does the recorded group. */
  ghost predicate KidsOk(r: Run, parent: Option<nat>, kids: Kids) {
    GroupsValid(kids)
    && (forall c | 0 <= c < |kids.nodes| :: NodeOk(r, parent, kids.nodes[c]))
    && (Truthy(kids.lastTurn) && kids.nodes != [] && kids.nodes[|kids.nodes| - 1].ToolNode? ==>
          r.events[kids.nodes[|kids.nodes| - 1].tool.at].uuid == kids.lastTurn)
    && (kids.lastGroup.Some? ==> r.events[kids.nodes[kids.lastGroup.value].tools[0].at].uuid == kids.lastTurn)
  }

  lemma AppendOk(r: Run, parent: Option<nat>, kids: Kids, node: Node, turn: Option<string>)
    requires KidsOk(r, parent, kids) && NodeOk(r, parent, node)
    requires node.ToolNode? ==> r.events[node.tool.at].uuid == turn
    ensures KidsOk(r, parent, Append(kids, node, turn))
  {
    hide NodeOk;
  }

  lemma SlipOk(r: Run, parent: Option<nat>, kids: Kids, node: Node)
    requires KidsOk(r, parent, kids) && NodeOk(r, parent, node) && !node.ToolNode?
    ensures KidsOk(r, parent, Slip(kids, node))
  {
    hide NodeOk;
  }

  /** Grouping keeps every node in order, and groups only tools of one message. */
  lemma AttachOk(r: Run, parent: Option<nat>, kids: Kids, tool: Tool, turn: Option<string>)
    requires KidsOk(r, parent, kids) && NodeOk(r, parent, ToolNode(tool))
    requires r.events[tool.at].uuid == turn
    ensures KidsOk(r, parent, AttachTool(kids, tool, turn))
  {
    var n := |kids.nodes|;
    if Truthy(turn) && kids.lastTurn == turn && kids.lastGroup.Some? {
      JoinsGroup(r, parent, kids, tool, turn);
    } else if Truthy(turn) && kids.lastTurn == turn && n > 0 && kids.nodes[n - 1].ToolNode? {
      FormsGroup(r, parent, kids, tool, turn);
    } else {
      AppendOk(r, parent, kids, ToolNode(tool), turn);
    }
  }

  lemma JoinsGroup(r: Run, parent: Option<nat>, kids: Kids, tool: Tool, turn: Option<string>)
    requires KidsOk(r, parent, kids) && NodeOk(r, parent, ToolNode(tool))
    requires r.events[tool.at].uuid == turn && Truthy(turn) && kids.lastTurn == turn && kids.lastGroup.Some?
    ensures KidsOk(r, parent, AttachTool(kids, tool, turn))
  {
    var g := kids.lastGroup.value;
    var tools := kids.nodes[g].tools;
    assert GroupOk(r, tools) by {
      assert NodeOk(r, parent, kids.nodes[g]);
    }
    assert tool.at < |r.events| && tools[0].at < |r.events|;
    hide NodeOk, GroupOk;
    GroupGrows(r, parent, tools, tool);
    assert (tools + [tool])[0] == tools[0];
    ReplaceOk(r, parent, kids, g, tools + [tool]);
  }

  /** Putting a group of the last turn's tools in the list. */
  lemma ReplaceOk(r: Run, parent: Option<nat>, kids: Kids, g: nat, tools: seq<Tool>)
    requires KidsOk(r, parent, kids) && NodeOk(r, parent, GroupNode(tools)) && g < |kids.nodes|
    requires tools != [] && tools[0].at < |r.events| && r.events[tools[0].at].uuid == kids.lastTurn
    ensures KidsOk(r, parent, kids.(nodes := kids.nodes[g := GroupNode(tools)], lastGroup := Some(g)))
  {
    hide NodeOk;
    var after := kids.nodes[g := GroupNode(tools)];
    forall c | 0 <= c < |after| ensures NodeOk(r, parent, after[c]) {
    }
  }

  lemma GroupGrows(r: Run, parent: Option<nat>, tools: seq<Tool>, tool: Tool)
    requires NodeOk(r, parent, GroupNode(tools)) && NodeOk(r, parent, ToolNode(tool))
    requires SameUuid(r.events[tools[0].at], r.events[tool.at])
    ensures NodeOk(r, parent, GroupNode(tools + [tool]))
  {
    hide ToolOk, ToolParent;
    assert GroupOk(r, tools);
  }

  lemma FormsGroup(r: Run, parent: Option<nat>, kids: Kids, tool: Tool, turn: Option<string>)
    requires KidsOk(r, parent, kids) && NodeOk(r, parent, ToolNode(tool))
    requires r.events[tool.at].uuid == turn && Truthy(turn) && kids.lastTurn == turn && kids.lastGroup.None?
    requires kids.nodes != [] && kids.nodes[|kids.nodes| - 1].ToolNode?
    ensures KidsOk(r, parent, AttachTool(kids, tool, turn))
  {
    var n := |kids.nodes| - 1;
    var first := kids.nodes[n].tool;
    assert NodeOk(r, parent, ToolNode(first)) && first.at < |r.events| && tool.at < |r.events|;
    hide NodeOk;
    PairOk(r, parent, first, tool);
    ReplaceOk(r, parent, kids, n, [first, tool]);
  }

  lemma PairOk(r: Run, parent: Option<nat>, a: Tool, b: Tool)
    requires NodeOk(r, parent, ToolNode(a)) && NodeOk(r, parent, ToolNode(b))
    requires SameUuid(r.events[a.at], r.events[b.at])
    ensures NodeOk(r, parent, GroupNode([a, b]))
  {
    hide ToolOk, ToolParent;
  }

  lemma AttachSkillTokens(kids: Kids, tool: Tool, turn: Option<string>)
    requires GroupsValid(kids)
    ensures SkillTokens(AttachTool(kids, tool, turn).nodes) == SkillTokens(kids.nodes)
  {
    hide SkillTokens;
    var n := |kids.nodes|;
    if Truthy(turn) && kids.lastTurn == turn && kids.lastGroup.Some? {
      var g := kids.lastGroup.value;
      SkillTokensUpdate(kids.nodes, g, GroupNode(kids.nodes[g].tools + [tool]));
    } else if Truthy(turn) && kids.lastTurn == turn && n > 0 && kids.nodes[n - 1].ToolNode? {
      SkillTokensUpdate(kids.nodes, n - 1, GroupNode([kids.nodes[n - 1].tool, tool]));
    } else {
      SkillTokensSnoc(kids.nodes, ToolNode(tool));
      PlusEmpty(SkillTokens(kids.nodes));
    }
  }

  lemma {:induction false} SkillTokensUpdate(nodes: seq<Node>, g: nat, node: Node)
    requires g < |nodes| && TokensIfSkill(node) == TokensIfSkill(nodes[g])
    ensures SkillTokens(nodes[g := node]) == SkillTokens(nodes)
  {
    var n := |nodes| - 1;
    if g == n {
      assert nodes[g := node][..n] == nodes[..n];
    } else {
      SkillTokensUpdate(nodes[..n], g, node);
      assert nodes[g := node][..n] == nodes[..n][g := node];
    }
  }
}
