/**
 The other half of the step: a tool result closes a frame, in whatever order
 frames close, or marks the row of a tool call.
 */
module TreeResults {
  import opened Collections
  import opened Options
  import opened Transcript
  import opened Matching
  import opened Attribution
  import opened Structure
  import opened Tree
  import opened TreeSteps

  function Verdict(e: CostEvent): Status
    requires e.ToolResult?
  {
    if e.isError then Failed else Fine
  }

  /** What a result that closes a frame settles. */
  lemma CloseFacts(r: Run, k: nat, p: nat)
    requires k < |r.events| && r.events[k].ToolResult?
    requires p < |OpenAt(r.events, k)| && p == LastWith(r.events, OpenAt(r.events, k), r.events[k].matched)
    ensures var open, x := OpenAt(r.events, k), OpenAt(r.events, k)[p];
            OpenAt(r.events, k + 1) == Without(open, p) && x !in Without(open, p)
            && ClosedBy(r.events, x) == Some(k) && StatusOf(r.events, x) == Verdict(r.events[k])
            && ParentOf(r, x) == Newest(Without(open, p))
            && ActiveAt(r, k).None? && !Parks(r)[k]
            && ActiveAt(r, k + 1) == if Without(open, p) == [] then Some(x) else None
  {
    var open := OpenAt(r.events, k);
    OpenAfterClose(r.events, k, p);
    WithoutMembers(open, p, open[p]);
    assert open[p] in open;
    hide OpenAt, LastWith, Without, Scan;
    ClosedNow(r.events, k, open[p]);
    hide ClosedBy;
    assert Marks(r, k) == "";
    hide Marks, PhaseAt;
  }

  lemma FrameDispatch(r: Run, k: nat, f: Frame)
    requires k <= |r.events| && FrameOk(r, k, f)
    ensures f.at < |r.events| && IsDispatch(r.events[f.at])
  {
    hide OpenAt, KidsOk, FramePhase, OwnShare, SkillTokens;
  }

  lemma PopOk(r: Run, k: nat, open: seq<Frame>, p: nat)
    requires k < |r.events| && r.events[k].ToolResult? && FramesOpen(r, k, open) && p < |open|
    requires OpenAt(r.events, k + 1) == Without(OpenAt(r.events, k), p)
    ensures FramesOpen(r, k + 1, Pop(open, p)) && FrameOk(r, k + 1, open[p])
    ensures |open| > 1 ==> FrameOk(r, k + 1, Pop(open, p)[|open| - 2])
    ensures open[p].at < |r.events| && IsDispatch(r.events[open[p].at]) && open[p].at == OpenAt(r.events, k)[p]
  {
    hide OpenAt, FrameOk, Without, Pop;
    FrameDispatch(r, k, open[p]);
    forall q | 0 <= q < |open| ensures FrameOk(r, k + 1, open[q]) {
      FrameLater(r, k, open[q]);
    }
  }

  /** The frame's row goes to the newest frame still in flight, which rolls up its tokens. */
  lemma ClosesNested(r: Run, k: nat, b: TreeBooks, p: nat)
    requires k < |r.events| && r.events[k].ToolResult? && TreeBooksOk(r, k, b)
    requires p < |b.open| && p == LastWith(r.events, OpenAt(r.events, k), r.events[k].matched) && |b.open| > 1
    ensures b.active.None?
    ensures TreeBooksOk(r, k + 1, b.(open := Folded(b.open, p, Verdict(r.events[k]))))
  {
    CloseFacts(r, k, p);
    hide *;
    OpenLength(r, k, b);
    FoldedOk(r, k, b.open, p);
    FoldedLabels(b.open, p, Verdict(r.events[k]));
    ResultKeeps(r, k, b, b.(open := Folded(b.open, p, Verdict(r.events[k]))));
  }

  function Folded(open: seq<Frame>, p: nat, status: Status): seq<Frame>
    requires p < |open| && |open| > 1
  {
    var rest, n := Pop(open, p), |open| - 2;
    rest[n := WithSkill(rest[n], ClosedNode(open[p], status))]
  }

  lemma OpenLength(r: Run, k: nat, b: TreeBooks)
    requires k <= |r.events| && TreeBooksOk(r, k, b)
    ensures |b.open| == |OpenAt(r.events, k)| && FramesOpen(r, k, b.open) && ActiveOk(r, k, b.active)
    ensures forall p | 0 <= p < |b.open| :: b.open[p].at == OpenAt(r.events, k)[p]
    ensures b.active.Some? == ActiveAt(r, k).Some? && LabelsOk(r, k, b.open, b.active, b.buckets)
    ensures BucketsOk(r, b.buckets)
  {
    hide OpenAt, ActiveAt, FrameOk, BucketsOk, InlinesOk, PendingOk, LabelsOk;
  }

  lemma FoldedOk(r: Run, k: nat, open: seq<Frame>, p: nat)
    requires k < |r.events| && r.events[k].ToolResult? && FramesOpen(r, k, open) && p < |open| && |open| > 1
    requires p == LastWith(r.events, OpenAt(r.events, k), r.events[k].matched)
    requires |open| == |OpenAt(r.events, k)|
    requires forall p | 0 <= p < |open| :: open[p].at == OpenAt(r.events, k)[p]
    ensures FramesOpen(r, k + 1, Folded(open, p, Verdict(r.events[k])))
  {
    hide *;
    var rest, n := Pop(open, p), |open| - 2;
    NewestLeft(r, k, open, p);
    CloseFacts(r, k, p);
    PopOk(r, k, open, p);
    FoldedIs(open, p, Verdict(r.events[k]));
    NestsUnder(r, k + 1, open[p], rest[n], Verdict(r.events[k]));
    SwapLast(r, k + 1, rest, WithSkill(rest[n], ClosedNode(open[p], Verdict(r.events[k]))));
  }

  lemma FoldedIs(open: seq<Frame>, p: nat, status: Status)
    requires p < |open| && |open| > 1
    ensures ClosedNode(open[p], status).SkillNode?
    ensures var rest, n := Pop(open, p), |open| - 2;
            WithSkill(rest[n], ClosedNode(open[p], status)).at == rest[n].at
            && Folded(open, p, status) == rest[|rest| - 1 := WithSkill(rest[n], ClosedNode(open[p], status))]
  {
  }

  lemma NewestLeft(r: Run, k: nat, open: seq<Frame>, p: nat)
    requires k < |r.events| && p < |open| && |open| > 1 && |open| == |OpenAt(r.events, k)|
    requires forall p | 0 <= p < |open| :: open[p].at == OpenAt(r.events, k)[p]
    ensures |Pop(open, p)| == |open| - 1
    ensures var rest := Without(OpenAt(r.events, k), p);
            rest != [] && Newest(rest) == Some(Pop(open, p)[|open| - 2].at)
  {
    hide OpenAt, Without, Pop;
    var at, rest, n := OpenAt(r.events, k), Without(OpenAt(r.events, k), p), |open| - 2;
    assert rest[n] == at[if n < p then n else n + 1];
  }

  /** A closed frame f is listed under g. */
  lemma NestsUnder(r: Run, k: nat, f: Frame, g: Frame, status: Status)
    requires k <= |r.events| && FrameOk(r, k, f) && FrameOk(r, k, g)
    requires f.at < |r.events| && IsDispatch(r.events[f.at])
    requires ParentOf(r, f.at) == Some(g.at) && status == StatusOf(r.events, f.at)
    requires k == |r.events| || (f.at !in OpenAt(r.events, k) && ActiveAt(r, k) != Some(f.at))
    ensures FrameOk(r, k, WithSkill(g, ClosedNode(f, status)))
  {
    assert ClosedNode(f, status).SkillNode?;
    hide *;
    ClosedNodeOk(r, k, f, Some(g.at), status);
    FrameGainsSkill(r, k, g, ClosedNode(f, status));
  }

  lemma SwapLast(r: Run, k: nat, open: seq<Frame>, f: Frame)
    requires k <= |r.events| && FramesOpen(r, k, open) && open != [] && FrameOk(r, k, f) && f.at == open[|open| - 1].at
    ensures FramesOpen(r, k, open[|open| - 1 := f])
  {
    hide FrameOk, OpenAt;
  }

  lemma FoldedLabels(open: seq<Frame>, p: nat, status: Status)
    requires p < |open| && |open| > 1
    ensures OpenLabels(Folded(open, p, status)) == OpenLabels(open)
  {
    hide *;
    var rest, n, f := Pop(open, p), |open| - 2, open[p];
    FoldedIs(open, p, status);
    OpenLabelsPop(open, p);
    WithSkillLabels(rest[n], f, status);
    OpenLabelsUpdate(rest, n, WithSkill(rest[n], ClosedNode(f, status)), FrameLabels(f));
  }

  lemma WithSkillLabels(g: Frame, f: Frame, status: Status)
    ensures FrameLabels(WithSkill(g, ClosedNode(f, status))) == FrameLabels(g) + FrameLabels(f)
  {
    var node := ClosedNode(f, status);
    AllLabelsSnoc(g.kids.nodes, node);
    assert Labels(node) == FrameLabels(f);
    hide AllLabels, Labels;
  }

  /** A result moves only the lists of skills. */
  lemma ResultKeeps(r: Run, k: nat, b: TreeBooks, b': TreeBooks)
    requires k < |r.events| && r.events[k].ToolResult? && TreeBooksOk(r, k, b)
    requires b'.inline == b.inline && b'.pending == b.pending
    requires FramesOpen(r, k + 1, b'.open) && ActiveOk(r, k + 1, b'.active) && BucketsOk(r, b'.buckets)
    requires OpenLabels(b'.open) + ActiveLabels(b'.active) + BucketLabels(b'.buckets)
             == OpenLabels(b.open) + ActiveLabels(b.active) + BucketLabels(b.buckets)
    ensures TreeBooksOk(r, k + 1, b')
  {
    NoNewLabel(r.events, k);
    ParksFacts(r, k);
    hide FramesOpen, ActiveOk, BucketsOk, InlinesOk, PendingOk, OpenLabels, ActiveLabels, BucketLabels, EventLabels, Parks;
    InlinesLater(r, k, b.inline);
    PendingKept(r.events, Parks(r), k, b.pending);
  }

  /** The last frame in flight becomes the active skill. */
  lemma ClosesTop(r: Run, k: nat, b: TreeBooks)
    requires k < |r.events| && r.events[k].ToolResult? && TreeBooksOk(r, k, b)
    requires |b.open| == 1 && LastWith(r.events, OpenAt(r.events, k), r.events[k].matched) == 0
    ensures b.active.None?
    ensures TreeBooksOk(r, k + 1, b.(open := [], active := Some(Staged(b.open[0], Verdict(r.events[k])))))
  {
    hide *;
    OpenLength(r, k, b);
    CloseFacts(r, k, 0);
    StagedOk(r, k, b.open);
    StagedLabels(b.open[0], Verdict(r.events[k]), b.active, b.open);
    ResultKeeps(r, k, b, b.(open := [], active := Some(Staged(b.open[0], Verdict(r.events[k])))));
  }

  /** The staged skill starts with fresh grouping bookkeeping. */
  function Staged(f: Frame, status: Status): Active {
    Active(f.(kids := Kids(f.kids.nodes, None, None)), status)
  }

  lemma StagedOk(r: Run, k: nat, open: seq<Frame>)
    requires k < |r.events| && r.events[k].ToolResult? && FramesOpen(r, k, open)
    requires |open| == 1 == |OpenAt(r.events, k)| && open[0].at == OpenAt(r.events, k)[0]
    requires LastWith(r.events, OpenAt(r.events, k), r.events[k].matched) == 0
    ensures FramesOpen(r, k + 1, []) && ActiveOk(r, k + 1, Some(Staged(open[0], Verdict(r.events[k]))))
  {
    hide *;
    CloseFacts(r, k, 0);
    NoneLeft(OpenAt(r.events, k));
    var f := open[0];
    PopOk(r, k, open, 0);
    FreshKids(r, k + 1, f);
    StagedIs(r, k + 1, f, Verdict(r.events[k]));
  }

  lemma NoneLeft(open: seq<nat>)
    requires |open| == 1
    ensures Without(open, 0) == [] && Newest([]) == None
  {
  }

  lemma StagedIs(r: Run, k: nat, f: Frame, status: Status)
    requires k <= |r.events| && f.at < |r.events| && IsDispatch(r.events[f.at])
    requires FrameOk(r, k, f.(kids := Kids(f.kids.nodes, None, None)))
    requires OpenAt(r.events, k) == [] && ActiveAt(r, k) == Some(f.at) && ClosedBy(r.events, f.at).Some?
    requires ParentOf(r, f.at) == None && status == StatusOf(r.events, f.at)
    ensures FramesOpen(r, k, []) && ActiveOk(r, k, Some(Staged(f, status)))
  {
    hide OpenAt, ActiveAt, FrameOk, ParentOf, StatusOf, ClosedBy, IsDispatch;
  }

  lemma FreshKids(r: Run, k: nat, f: Frame)
    requires k <= |r.events| && FrameOk(r, k, f)
    ensures FrameOk(r, k, f.(kids := Kids(f.kids.nodes, None, None)))
  {
    hide NodeOk, OpenAt, FramePhase, OwnShare, SkillTokens;
  }

  lemma StagedLabels(f: Frame, status: Status, active: Option<Active>, open: seq<Frame>)
    requires open == [f] && active.None?
    ensures OpenLabels([]) + ActiveLabels(Some(Staged(f, status))) == OpenLabels(open) + ActiveLabels(active)
  {
    assert open == [] + [f];
    OpenLabelsSnoc([], f);
    hide AllLabels;
  }

  /** A result that closes no frame moves neither frames nor phases. */
  lemma MissFacts(r: Run, k: nat)
    requires k < |r.events| && r.events[k].ToolResult?
    requires LastWith(r.events, OpenAt(r.events, k), r.events[k].matched) < 0
    ensures OpenAt(r.events, k + 1) == OpenAt(r.events, k) && ActiveAt(r, k + 1) == ActiveAt(r, k)
    ensures PhaseAt(r, k + 1) == PhaseAt(r, k)
  {
    assert Marks(r, k) == "";
    hide LastWith, Marks;
  }

  // ----- Rows of tool calls ----------------------------------------------------------

  /** Where a tool row stands in a list of children. */
  datatype Place = Row(n: nat) | Member(n: nat, m: nat)

  predicate Stands(nodes: seq<Node>, place: Place) {
    place.n < |nodes|
    && match place
       case Row(n) => nodes[n].ToolNode?
       case Member(n, m) => nodes[n].GroupNode? && m < |nodes[n].tools|
  }

  function ToolAtPlace(nodes: seq<Node>, place: Place): Tool
    requires Stands(nodes, place)
  {
    match place
    case Row(n) => nodes[n].tool
    case Member(n, m) => nodes[n].tools[m]
  }

  function Marked(nodes: seq<Node>, place: Place): seq<Node>
    requires Stands(nodes, place)
  {
    var tool := ToolAtPlace(nodes, place).(status := Failed);
    nodes[place.n := match place
                     case Row(_) => ToolNode(tool)
                     case Member(n, m) => GroupNode(nodes[n].tools[m := tool])]
  }

  /** The latest tool row with the given id, as the source searches: from the
      end, and within a group from its end. */
  method FindTool(nodes: seq<Node>, id: Option<string>) returns (found: Option<Place>)
    ensures found.Some? ==>
              Stands(nodes, found.value) && Truthy(id) && Some(ToolAtPlace(nodes, found.value).id) == id
    ensures Truthy(id) ==> forall place ::
              Stands(nodes, place) && Some(ToolAtPlace(nodes, place).id) == id ==> found.Some? && !Before(found.value, place)
  {
    found := None;
    if !Truthy(id) { return; }
    var n := |nodes|;
    while n > 0
      invariant 0 <= n <= |nodes|
      invariant forall place :: Stands(nodes, place) && place.n >= n ==> Some(ToolAtPlace(nodes, place).id) != id
    {
      n := n - 1;
      if nodes[n].ToolNode? && Some(nodes[n].tool.id) == id {
        found := Some(Row(n));
        return;
      }
      if nodes[n].GroupNode? {
        var m := |nodes[n].tools|;
        while m > 0
          invariant 0 <= m <= |nodes[n].tools|
          invariant forall q | m <= q < |nodes[n].tools| :: Some(nodes[n].tools[q].id) != id
        {
          m := m - 1;
          if Some(nodes[n].tools[m].id) == id {
            found := Some(Member(n, m));
            return;
          }
        }
      }
    }
  }

  predicate Before(a: Place, b: Place) {
    a.n < b.n || (a.n == b.n && a.Member? && b.Member? && a.m < b.m)
  }

  lemma MarkedKeeps(nodes: seq<Node>, place: Place)
    requires Stands(nodes, place)
    ensures AllLabels(Marked(nodes, place)) == AllLabels(nodes)
    ensures SkillTokens(Marked(nodes, place)) == SkillTokens(nodes)
  {
    var node := Marked(nodes, place)[place.n];
    MarkedLabels(nodes, place);
    hide AllLabels, SkillTokens, Labels;
    AllLabelsUpdate(nodes, place.n, node, multiset{});
    SkillTokensUpdate(nodes, place.n, node);
  }

  lemma MarkedLabels(nodes: seq<Node>, place: Place)
    requires Stands(nodes, place)
    ensures Labels(Marked(nodes, place)[place.n]) == Labels(nodes[place.n])
  {
    if place.Member? {
      ToolLabelsSame(nodes[place.n].tools, place.m, ToolAtPlace(nodes, place).(status := Failed));
    }
  }

  lemma {:induction false} ToolLabelsSame(tools: seq<Tool>, m: nat, tool: Tool)
    requires m < |tools| && tool.at == tools[m].at
    ensures ToolLabels(tools[m := tool]) == ToolLabels(tools)
  {
    var n := |tools| - 1;
    if m == n {
      assert tools[m := tool][..n] == tools[..n];
    } else {
      ToolLabelsSame(tools[..n], m, tool);
      assert tools[m := tool][..n] == tools[..n][m := tool];
    }
  }

  /** A row in the list is labelled there. */
  lemma {:induction false} PlaceLabelled(nodes: seq<Node>, place: Place)
    requires Stands(nodes, place)
    ensures ToolAt(ToolAtPlace(nodes, place).at) in AllLabels(nodes)
  {
    var n := |nodes| - 1;
    if place.n == n {
      if place.Member? {
        MemberLabelled(nodes[n].tools, place.m);
      }
    } else {
      PlaceLabelled(nodes[..n], place);
    }
  }

  lemma {:induction false} MemberLabelled(tools: seq<Tool>, m: nat)
    requires m < |tools|
    ensures ToolAt(tools[m].at) in ToolLabels(tools)
  {
    if m < |tools| - 1 {
      MemberLabelled(tools[..|tools| - 1], m);
    }
  }

  lemma {:induction false} LabelledEarlier(events: seq<CostEvent>, k: nat, at: nat)
    requires k <= |events| && ToolAt(at) in EventLabels(events, k)
    ensures at < k
  {
    if ToolAt(at) !in LabelOf(events[k - 1], k - 1) {
      LabelledEarlier(events, k - 1, at);
    }
  }

  /** An error result marks a row it names. */
  lemma MarkedOk(r: Run, k: nat, parent: Option<nat>, kids: Kids, place: Place)
    requires k < |r.events| && KidsOk(r, parent, kids) && Stands(kids.nodes, place)
    requires Closes(r.events[k], ToolAtPlace(kids.nodes, place).id) && r.events[k].isError
    requires ToolAtPlace(kids.nodes, place).at < k
    ensures KidsOk(r, parent, kids.(nodes := Marked(kids.nodes, place)))
  {
    var node := Marked(kids.nodes, place)[place.n];
    assert NodeOk(r, parent, kids.nodes[place.n]);
    MarkedNodeOk(r, k, parent, kids.nodes, place);
    hide *;
    MarkedAlike(kids.nodes, place);
    AlikeOk(r, parent, kids, place.n, node);
  }

  /** Same kind of row, of the same first call. */
  predicate Alike(a: Node, b: Node) {
    (a.ToolNode? <==> b.ToolNode?) && (a.GroupNode? <==> b.GroupNode?)
    && (a.ToolNode? ==> a.tool.at == b.tool.at)
    && (a.GroupNode? && a.tools != [] ==> b.tools != [] && a.tools[0].at == b.tools[0].at)
  }

  lemma MarkedAlike(nodes: seq<Node>, place: Place)
    requires Stands(nodes, place)
    ensures Marked(nodes, place) == nodes[place.n := Marked(nodes, place)[place.n]]
    ensures Alike(nodes[place.n], Marked(nodes, place)[place.n])
  {
  }

  lemma AlikeOk(r: Run, parent: Option<nat>, kids: Kids, g: nat, node: Node)
    requires KidsOk(r, parent, kids) && g < |kids.nodes| && NodeOk(r, parent, node) && Alike(kids.nodes[g], node)
    ensures KidsOk(r, parent, kids.(nodes := kids.nodes[g := node]))
  {
    hide NodeOk;
    var after := kids.nodes[g := node];
    GroupNotEmpty(r, parent, kids.nodes[g]);
    forall c | 0 <= c < |after| ensures NodeOk(r, parent, after[c]) {
    }
    LastAlike(r, kids, g, node);
    hide Truthy;
  }

  lemma LastAlike(r: Run, kids: Kids, g: nat, node: Node)
    requires g < |kids.nodes| && Alike(kids.nodes[g], node)
    requires kids.nodes[g].GroupNode? ==> kids.nodes[g].tools != []
    ensures var after, n := kids.nodes[g := node], |kids.nodes| - 1;
            (after[n].ToolNode? ==> kids.nodes[n].ToolNode? && after[n].tool.at == kids.nodes[n].tool.at)
            && forall c | 0 <= c <= n && kids.nodes[c].GroupNode? ::
                 after[c].GroupNode? && (kids.nodes[c].tools != [] ==> after[c].tools != [] && after[c].tools[0].at == kids.nodes[c].tools[0].at)
  {
  }

  lemma GroupNotEmpty(r: Run, parent: Option<nat>, node: Node)
    requires NodeOk(r, parent, node)
    ensures node.GroupNode? ==> node.tools != [] && node.tools[0].at < |r.events|
    ensures node.ToolNode? ==> node.tool.at < |r.events|
  {
  }

  lemma MarkedNodeOk(r: Run, k: nat, parent: Option<nat>, nodes: seq<Node>, place: Place)
    requires k < |r.events| && Stands(nodes, place) && NodeOk(r, parent, nodes[place.n])
    requires Closes(r.events[k], ToolAtPlace(nodes, place).id) && r.events[k].isError
    requires ToolAtPlace(nodes, place).at < k
    ensures NodeOk(r, parent, Marked(nodes, place)[place.n])
  {
    var tool := ToolAtPlace(nodes, place);
    hide ToolParent;
    match place
    case Row(n) =>
      MarkedToolOk(r, k, tool);
    case Member(n, m) =>
      assert GroupOk(r, nodes[n].tools);
      MarkedToolOk(r, k, tool);
      hide ToolOk;
  }

  lemma MarkedToolOk(r: Run, k: nat, tool: Tool)
    requires k < |r.events| && ToolOk(r, tool)
    requires Closes(r.events[k], tool.id) && r.events[k].isError && tool.at < k
    ensures ToolOk(r, tool.(status := Failed))
  {
  }

  // ----- A result that closes no frame --------------------------------------------------

  /** The row the search found takes the result's verdict. */
  function MarkKids(kids: Kids, found: Option<Place>, e: CostEvent): Kids
    requires e.ToolResult?
  {
    if found.Some? && Stands(kids.nodes, found.value) && e.isError then kids.(nodes := Marked(kids.nodes, found.value)) else kids
  }

  predicate Found(nodes: seq<Node>, found: Option<Place>, e: CostEvent) {
    found.Some? ==> Stands(nodes, found.value) && Closes(e, ToolAtPlace(nodes, found.value).id)
  }

  lemma MarkKidsOk(r: Run, k: nat, parent: Option<nat>, kids: Kids, found: Option<Place>)
    requires k < |r.events| && r.events[k].ToolResult? && KidsOk(r, parent, kids) && Found(kids.nodes, found, r.events[k])
    requires AllLabels(kids.nodes) <= EventLabels(r.events, k)
    ensures var after := MarkKids(kids, found, r.events[k]);
            KidsOk(r, parent, after) && AllLabels(after.nodes) == AllLabels(kids.nodes)
            && SkillTokens(after.nodes) == SkillTokens(kids.nodes)
  {
    hide KidsOk, AllLabels, SkillTokens, EventLabels, Marked;
    if found.Some? && r.events[k].isError {
      PlaceLabelled(kids.nodes, found.value);
      LabelledEarlier(r.events, k, ToolAtPlace(kids.nodes, found.value).at);
      MarkedOk(r, k, parent, kids, found.value);
      MarkedKeeps(kids.nodes, found.value);
    }
  }

  function MarkFrame(f: Frame, found: Option<Place>, e: CostEvent): Frame
    requires e.ToolResult?
  {
    f.(kids := MarkKids(f.kids, found, e))
  }

  lemma MarkFrameOk(r: Run, k: nat, f: Frame, found: Option<Place>)
    requires k < |r.events| && r.events[k].ToolResult? && FrameOk(r, k, f) && Found(f.kids.nodes, found, r.events[k])
    requires AllLabels(f.kids.nodes) <= EventLabels(r.events, k)
    ensures FrameOk(r, k + 1, MarkFrame(f, found, r.events[k]))
    ensures FrameLabels(MarkFrame(f, found, r.events[k])) == FrameLabels(f) && MarkFrame(f, found, r.events[k]).at == f.at
  {
    hide KidsOk, OwnShare, SkillTokens, FramePhase, AllLabels, MarkKids, EventLabels, OpenAt;
    FrameLater(r, k, f);
    MarkKidsOk(r, k, Some(f.at), f.kids, found);
  }

  lemma FrameWithin(r: Run, k: nat, b: TreeBooks, p: nat)
    requires k <= |r.events| && LabelsOk(r, k, b.open, b.active, b.buckets) && p < |b.open|
    ensures AllLabels(b.open[p].kids.nodes) <= EventLabels(r.events, k)
  {
    hide OpenLabels, ActiveLabels, BucketLabels, EventLabels, AllLabels;
    OpenLabelsPop(b.open, p);
  }

  lemma ActiveWithin(r: Run, k: nat, b: TreeBooks)
    requires k <= |r.events| && LabelsOk(r, k, b.open, b.active, b.buckets) && b.active.Some?
    ensures AllLabels(b.active.value.frame.kids.nodes) <= EventLabels(r.events, k)
  {
    assert b.active == Some(b.active.value);
    ActiveLabelsSome(b.active.value);
    hide OpenLabels, ActiveLabels, BucketLabels, EventLabels, AllLabels;
  }

  lemma BucketWithin(r: Run, k: nat, b: TreeBooks, p: string)
    requires k <= |r.events| && LabelsOk(r, k, b.open, b.active, b.buckets)
    ensures AllLabels(KidsOf(b.buckets, p).nodes) <= EventLabels(r.events, k)
  {
    hide OpenLabels, ActiveLabels, BucketLabels, EventLabels;
    if p in b.buckets {
      BucketLabelsAt(b.buckets, p);
      hide AllLabels;
    }
  }

  /** Looked up in the innermost frame. */
  lemma MarksInFrame(r: Run, k: nat, b: TreeBooks, found: Option<Place>)
    requires k < |r.events| && r.events[k].ToolResult? && TreeBooksOk(r, k, b) && b.open != []
    requires LastWith(r.events, OpenAt(r.events, k), r.events[k].matched) < 0
    requires Found(b.open[|b.open| - 1].kids.nodes, found, r.events[k])
    ensures var p := |b.open| - 1;
            TreeBooksOk(r, k + 1, b.(open := b.open[p := MarkFrame(b.open[p], found, r.events[k])]))
  {
    hide *;
    var p := |b.open| - 1;
    FoundStands(b.open[p].kids.nodes, found, r.events[k]);
    var f := MarkFrame(b.open[p], found, r.events[k]);
    OpenLength(r, k, b);
    MissFacts(r, k);
    FrameWithin(r, k, b, p);
    OpenFrame(r, k, b.open, p);
    MarkFrameOk(r, k, b.open[p], found);
    OthersLater(r, k, b.open, p);
    OpenReplaced(r, k, b.open, p, f);
    OpenLabelsUpdate(b.open, p, f, multiset{});
    ActiveLater(r, k, b.active);
    ResultKeeps(r, k, b, b.(open := b.open[p := f]));
  }

  /** Looked up under the active skill. */
  lemma MarksInActive(r: Run, k: nat, b: TreeBooks, found: Option<Place>)
    requires k < |r.events| && r.events[k].ToolResult? && TreeBooksOk(r, k, b) && b.open == [] && b.active.Some?
    requires Found(b.active.value.frame.kids.nodes, found, r.events[k])
    ensures var a := b.active.value;
            TreeBooksOk(r, k + 1, b.(active := Some(a.(frame := MarkFrame(a.frame, found, r.events[k])))))
  {
    hide *;
    var a := b.active.value;
    FoundStands(a.frame.kids.nodes, found, r.events[k]);
    assert b.active == Some(a);
    var f := MarkFrame(a.frame, found, r.events[k]);
    OpenLength(r, k, b);
    NoneOpen(r.events, k);
    MissFacts(r, k);
    ActiveWithin(r, k, b);
    ActiveFacts(r, k, a);
    MarkFrameOk(r, k, a.frame, found);
    OpenLater(r, k, b.open);
    ActiveSwapped(r, k + 1, a, f);
    SameActiveLabels(a, f);
    ResultKeeps(r, k, b, b.(active := Some(a.(frame := f))));
  }

  lemma SameActiveLabels(a: Active, f: Frame)
    requires FrameLabels(f) == FrameLabels(a.frame)
    ensures ActiveLabels(Some(a.(frame := f))) == ActiveLabels(Some(a))
  {
    hide FrameLabels;
  }

  lemma FoundStands(nodes: seq<Node>, found: Option<Place>, e: CostEvent)
    requires Found(nodes, found, e)
    ensures found.Some? ==> Stands(nodes, found.value)
  {
  }

  lemma NoneOpen(events: seq<CostEvent>, k: nat)
    requires k < |events| && events[k].ToolResult? && |OpenAt(events, k)| == 0
    ensures LastWith(events, OpenAt(events, k), events[k].matched) < 0
  {
  }

  /** Looked up in the current phase's bucket, which is created if need be. */
  lemma MarksInBucket(r: Run, k: nat, b: TreeBooks, found: Option<Place>, p: string)
    requires k < |r.events| && r.events[k].ToolResult? && TreeBooksOk(r, k, b) && b.open == [] && b.active.None?
    requires Found(KidsOf(b.buckets, p).nodes, found, r.events[k])
    ensures TreeBooksOk(r, k + 1, b.(buckets := b.buckets[p := MarkKids(KidsOf(b.buckets, p), found, r.events[k])]))
  {
    hide *;
    var kids := KidsOf(b.buckets, p);
    FoundStands(kids.nodes, found, r.events[k]);
    OpenLength(r, k, b);
    NoneOpen(r.events, k);
    MissFacts(r, k);
    BucketWithin(r, k, b, p);
    MarkBucketOk(r, k, b.buckets, p, found);
    OpenLater(r, k, b.open);
    ActiveLater(r, k, b.active);
    ResultKeeps(r, k, b, b.(buckets := b.buckets[p := MarkKids(kids, found, r.events[k])]));
  }

  lemma MarkBucketOk(r: Run, k: nat, buckets: map<string, Kids>, p: string, found: Option<Place>)
    requires k < |r.events| && r.events[k].ToolResult? && BucketsOk(r, buckets)
    requires Found(KidsOf(buckets, p).nodes, found, r.events[k])
    requires AllLabels(KidsOf(buckets, p).nodes) <= EventLabels(r.events, k)
    ensures var after := buckets[p := MarkKids(KidsOf(buckets, p), found, r.events[k])];
            BucketsOk(r, after) && BucketLabels(after) == BucketLabels(buckets)
  {
    var kids := KidsOf(buckets, p);
    assert BucketOk(r, p, kids);
    hide *;
    FoundStands(kids.nodes, found, r.events[k]);
    var after := MarkKids(kids, found, r.events[k]);
    BucketKids(r, p, kids);
    MarkKidsOk(r, k, None, kids, found);
    MarkPlaces(r, k, p, kids, found);
    BucketReplaced(r, buckets, p, after);
    BucketGains(buckets, p, after, multiset{});
  }

  lemma BucketKids(r: Run, p: string, kids: Kids)
    requires BucketOk(r, p, kids)
    ensures KidsOk(r, None, kids)
  {
    hide KidsOk, InBucket;
  }

  lemma MarkPlaces(r: Run, k: nat, p: string, kids: Kids, found: Option<Place>)
    requires k < |r.events| && r.events[k].ToolResult? && BucketOk(r, p, kids) && Found(kids.nodes, found, r.events[k])
    requires KidsOk(r, None, MarkKids(kids, found, r.events[k]))
    ensures BucketOk(r, p, MarkKids(kids, found, r.events[k]))
  {
    hide KidsOk, HomeOf, PhaseAt;
    if found.Some? {
      assert InBucket(r, p, kids.nodes[found.value.n]);
    }
  }
}
