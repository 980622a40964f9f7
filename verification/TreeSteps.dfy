/**
 One step of the event loop of apps/ingest/structure_aggregator.py: what each
 variable of `aggregate` holds after k events, by the rules of module Structure,
 and that turns, dispatches and tool calls keep it so.
 */
module TreeSteps {
  import opened Collections
  import opened Options
  import opened Transcript
  import opened Matching
  import opened Attribution
  import opened Registry
  import opened Structure
  import opened Tree

  /** A frame in flight, or the finished top-level skill that absorbs inline work. */
  datatype Frame = Frame(at: nat, id: string, name: string, subagent: bool, phase: string, tokens: Tokens, kids: Kids)

  datatype Active = Active(frame: Frame, status: Status)

  /** Turns no skill has claimed, per bucket. */
  datatype Inline = Inline(tokens: Tokens, unpriced: bool, turns: seq<Node>)

  const NoInline := Inline(EmptyTokens, false, [])

  function ClosedNode(f: Frame, status: Status): Node {
    SkillNode(f.at, f.name, f.subagent, status, f.tokens, f.kids.nodes)
  }

  function KidsOf(buckets: map<string, Kids>, p: string): Kids {
    if p in buckets then buckets[p] else NoKids
  }

  function InlineOf(inline: map<string, Inline>, p: string): Inline {
    if p in inline then inline[p] else NoInline
  }

  /** The active skill goes to the bucket of its phase. */
  function Flushed(buckets: map<string, Kids>, active: Option<Active>): map<string, Kids> {
    match active
    case None => buckets
    case Some(a) =>
      var p := BucketName(Some(a.frame.phase));
      buckets[p := Slip(KidsOf(buckets, p), ClosedNode(a.frame, a.status))]
  }

  // ----- What each field holds after k events ----------------------------------

  ghost predicate FrameOk(r: Run, k: nat, f: Frame)
    requires k <= |r.events|
  {
    f.at < k && IsDispatch(r.events[f.at])
    && f.id == FrameId(r.events[f.at]) && f.name == SkillName(r.events[f.at])
    && f.subagent == (OpenAt(r.events, f.at) != []) && f.phase == FramePhase(r, f.at)
    && f.tokens == OwnShare(r, k, ByFrame(f.at)).Plus(SkillTokens(f.kids.nodes))
    && KidsOk(r, Some(f.at), f.kids)
  }

  ghost predicate FramesOpen(r: Run, k: nat, open: seq<Frame>)
    requires k <= |r.events|
  {
    |open| == |OpenAt(r.events, k)|
    && forall p | 0 <= p < |open| :: open[p].at == OpenAt(r.events, k)[p] && FrameOk(r, k, open[p])
  }

  ghost predicate ActiveOk(r: Run, k: nat, active: Option<Active>)
    requires k <= |r.events|
  {
    active.Some? == ActiveAt(r, k).Some?
    && (active.Some? ==>
          var f := active.value.frame;
          f.at == ActiveAt(r, k).value && FrameOk(r, k, f)
          && ClosedBy(r.events, f.at).Some? && ParentOf(r, f.at).None?
          && active.value.status == StatusOf(r.events, f.at))
  }

  /** The bucket a top-level node belongs to. */
  ghost predicate InBucket(r: Run, p: string, node: Node) {
    match node
    case SkillNode(at, _, _, _, _, _) => at < |r.events| && IsDispatch(r.events[at]) && HomeOf(r, at) == p
    case ToolNode(tool) => tool.at < |r.events| && GetOr(PhaseAt(r, tool.at + 1), ORCHESTRATION) == p
    case GroupNode(tools) =>
      forall a | 0 <= a < |tools| :: tools[a].at < |r.events| && GetOr(PhaseAt(r, tools[a].at + 1), ORCHESTRATION) == p
    case TurnNode(_, _) => false
    case InlineNode(_, _) => false
  }

  ghost predicate BucketOk(r: Run, p: string, kids: Kids) {
    KidsOk(r, None, kids) && forall c | 0 <= c < |kids.nodes| :: InBucket(r, p, kids.nodes[c])
  }

  ghost predicate BucketsOk(r: Run, buckets: map<string, Kids>) {
    forall p :: BucketOk(r, p, KidsOf(buckets, p))
  }

  /** Some turn of the orchestrator's own in phase p has no known price. */
  ghost predicate Unpriced(r: Run, k: nat, p: string)
    requires k <= |r.events|
  {
    exists t :: 0 <= t < k && UnpricedAt(r, t, p)
  }

  ghost predicate UnpricedAt(r: Run, t: nat, p: string)
    requires t < |r.events|
  {
    r.events[t].AssistantTurn? && TurnOwner(r, t) == ByPhase(p) && !r.events[t].priced
  }

  ghost predicate InlineOk(r: Run, k: nat, p: string, inline: Inline)
    requires k <= |r.events|
  {
    inline.tokens == OwnShare(r, k, ByPhase(p)) && inline.unpriced == Unpriced(r, k, p)
    && forall c | 0 <= c < |inline.turns| ::
         inline.turns[c].TurnNode? && NodeOk(r, None, inline.turns[c]) && TurnOwner(r, inline.turns[c].at) == ByPhase(p)
  }

  ghost predicate InlinesOk(r: Run, k: nat, inline: map<string, Inline>)
    requires k <= |r.events|
  {
    forall p :: InlineOk(r, k, p, InlineOf(inline, p))
  }

  // ----- Labels: every dispatch and every tool call, once ----------------------------

  function LabelOf(e: CostEvent, k: nat): multiset<Label> {
    if IsDispatch(e) then multiset{SkillAt(k)} else if IsTool(e) then multiset{ToolAt(k)} else multiset{}
  }

  function EventLabels(events: seq<CostEvent>, k: nat): multiset<Label>
    requires k <= |events|
  {
    if k == 0 then multiset{} else EventLabels(events, k - 1) + LabelOf(events[k - 1], k - 1)
  }

  function FrameLabels(f: Frame): multiset<Label> {
    multiset{SkillAt(f.at)} + AllLabels(f.kids.nodes)
  }

  function OpenLabels(open: seq<Frame>): multiset<Label> {
    if open == [] then multiset{} else OpenLabels(open[..|open| - 1]) + FrameLabels(open[|open| - 1])
  }

  function ActiveLabels(active: Option<Active>): multiset<Label> {
    match active
    case None => multiset{}
    case Some(a) => FrameLabels(a.frame)
  }

  ghost function BucketLabels(buckets: map<string, Kids>): multiset<Label> {
    if buckets == map[] then multiset{} else
      var p :| p in buckets;
      BucketLabels(buckets - {p}) + AllLabels(buckets[p].nodes)
  }

  ghost predicate LabelsOk(r: Run, k: nat, open: seq<Frame>, active: Option<Active>, buckets: map<string, Kids>)
    requires k <= |r.events|
  {
    OpenLabels(open) + ActiveLabels(active) + BucketLabels(buckets) == EventLabels(r.events, k)
  }

  lemma OpenLabelsSnoc(open: seq<Frame>, f: Frame)
    ensures OpenLabels(open + [f]) == OpenLabels(open) + FrameLabels(f)
  {
    assert (open + [f])[..|open|] == open;
  }

  lemma {:induction false} OpenLabelsUpdate(open: seq<Frame>, p: nat, f: Frame, extra: multiset<Label>)
    requires p < |open| && FrameLabels(f) == FrameLabels(open[p]) + extra
    ensures OpenLabels(open[p := f]) == OpenLabels(open) + extra
  {
    hide FrameLabels;
    var n := |open| - 1;
    if p == n {
      assert open[p := f][..n] == open[..n];
    } else {
      OpenLabelsUpdate(open[..n], p, f, extra);
      assert open[p := f][..n] == open[..n][p := f];
    }
  }

  lemma {:induction false} OpenLabelsPop(open: seq<Frame>, p: nat)
    requires p < |open|
    ensures OpenLabels(open) == OpenLabels(Pop(open, p)) + FrameLabels(open[p])
  {
    hide FrameLabels;
    var n := |open| - 1;
    if p == n {
      assert Pop(open, p) == open[..n];
    } else {
      OpenLabelsPop(open[..n], p);
      assert Pop(open, p)[..n - 1] == Pop(open[..n], p);
    }
  }

  lemma SomeLabels(buckets: map<string, Kids>) returns (q: string)
    requires buckets != map[]
    ensures q in buckets && BucketLabels(buckets) == BucketLabels(buckets - {q}) + AllLabels(buckets[q].nodes)
  {
    hide AllLabels;
    q :| q in buckets && BucketLabels(buckets) == BucketLabels(buckets - {q}) + AllLabels(buckets[q].nodes);
  }

  lemma {:induction false} BucketLabelsAt(buckets: map<string, Kids>, p: string)
    requires p in buckets
    ensures BucketLabels(buckets) == BucketLabels(buckets - {p}) + AllLabels(buckets[p].nodes)
    decreases |buckets|
  {
    hide *;
    var q := SomeLabels(buckets);
    if q != p {
      var rest := buckets - {q};
      assert rest - {p} == buckets - {p} - {q} && rest[p] == buckets[p] && (buckets - {p})[q] == buckets[q];
      BucketLabelsAt(rest, p);
      BucketLabelsAt(buckets - {p}, q);
    }
  }

  lemma BucketGains(buckets: map<string, Kids>, p: string, kids: Kids, extra: multiset<Label>)
    requires AllLabels(kids.nodes) == AllLabels(KidsOf(buckets, p).nodes) + extra
    ensures BucketLabels(buckets[p := kids]) == BucketLabels(buckets) + extra
  {
    hide *;
    var after := buckets[p := kids];
    BucketLabelsAt(after, p);
    KidsAt(buckets, p);
    if p in buckets {
      BucketLabelsAt(buckets, p);
      assert after - {p} == buckets - {p};
    } else {
      assert after - {p} == buckets;
      NoLabels();
    }
  }

  lemma KidsAt(buckets: map<string, Kids>, p: string)
    ensures KidsOf(buckets, p) == if p in buckets then buckets[p] else NoKids
  {
  }

  lemma NoLabels()
    ensures AllLabels(NoKids.nodes) == multiset{}
  {
  }

  // ----- One frame, one event --------------------------------------------------------

  lemma OwnStep(r: Run, k: nat, o: Owner)
    requires k < |r.events|
    ensures OwnShare(r, k + 1, o) ==
            if o == TurnOwner(r, k) then OwnShare(r, k, o).Plus(UsageOf(r.events[k])) else OwnShare(r, k, o)
  {
    PlusEmpty(OwnShare(r, k, o));
    var owner, usage := TurnOwners(r)[k], UsageOf(r.events[k]);
    if o == owner {
      assert HeldBy(owner, usage, {o}) == usage;
    } else {
      assert HeldBy(owner, usage, {o}) == EmptyTokens;
    }
  }

  lemma OwnSame(r: Run, k: nat, o: Owner)
    requires k < |r.events| && (o != TurnOwner(r, k) || !r.events[k].AssistantTurn?)
    ensures OwnShare(r, k + 1, o) == OwnShare(r, k, o)
  {
    OwnStep(r, k, o);
    PlusEmpty(OwnShare(r, k, o));
  }

  lemma FrameLater(r: Run, k: nat, f: Frame)
    requires k < |r.events| && FrameOk(r, k, f)
    requires ByFrame(f.at) != TurnOwner(r, k) || !r.events[k].AssistantTurn?
    ensures FrameOk(r, k + 1, f)
  {
    hide KidsOk, OwnShare;
    OwnSame(r, k, ByFrame(f.at));
  }

  /** A turn of the frame's own, without and with a narration row. */
  lemma FrameGainsTurn(r: Run, k: nat, f: Frame)
    requires k < |r.events| && r.events[k].AssistantTurn? && FrameOk(r, k, f) && TurnOwner(r, k) == ByFrame(f.at)
    ensures FrameOk(r, k + 1, f.(tokens := f.tokens.Plus(UsageOf(r.events[k]))))
    ensures FrameOk(r, k + 1, f.(tokens := f.tokens.Plus(UsageOf(r.events[k])),
                                 kids := Slip(f.kids, TurnNode(k, UsageOf(r.events[k])))))
  {
    hide *;
    var usage := UsageOf(r.events[k]);
    var node := TurnNode(k, usage);
    FrameSpends(r, k, f, usage);
    OwnTurnOk(r, k, f.at);
    SpentFrameOk(r, k, f.(tokens := f.tokens.Plus(usage)), node);
  }

  lemma FrameSpends(r: Run, k: nat, f: Frame, usage: Tokens)
    requires k < |r.events| && r.events[k].AssistantTurn? && FrameOk(r, k, f) && TurnOwner(r, k) == ByFrame(f.at)
    requires usage == UsageOf(r.events[k])
    ensures FrameOk(r, k + 1, f.(tokens := f.tokens.Plus(usage)))
  {
    hide KidsOk, OwnShare, TurnOwner, SkillTokens, FramePhase, OpenAt, Tokens.Plus, UsageOf;
    OwnStep(r, k, ByFrame(f.at));
    PlusSwap(OwnShare(r, k, ByFrame(f.at)), SkillTokens(f.kids.nodes), usage);
  }

  lemma OwnTurnOk(r: Run, k: nat, at: nat)
    requires k < |r.events| && r.events[k].AssistantTurn? && TurnOwner(r, k) == ByFrame(at)
    ensures NodeOk(r, Some(at), TurnNode(k, UsageOf(r.events[k])))
  {
    hide TurnOwner;
  }

  /** A narration row weighs nothing. */
  lemma SpentFrameOk(r: Run, k: nat, f: Frame, node: Node)
    requires k < |r.events| && FrameOk(r, k + 1, f) && node.TurnNode? && NodeOk(r, Some(f.at), node)
    ensures FrameOk(r, k + 1, f.(kids := Slip(f.kids, node)))
  {
    hide KidsOk, OwnShare, SkillTokens, FramePhase, NodeOk, OpenAt, Tokens.Plus;
    SlipOk(r, Some(f.at), f.kids, node);
    SkillTokensSnoc(f.kids.nodes, node);
    PlusEmpty(SkillTokens(f.kids.nodes));
  }

  /** A tool call listed under the frame. */
  lemma FrameGainsTool(r: Run, k: nat, f: Frame, tool: Tool)
    requires k < |r.events| && IsTool(r.events[k]) && ToolParent(r, k) == Some(f.at)
    requires tool == NewTool(r.events[k], k) && FrameOk(r, k, f)
    ensures KidsOk(r, Some(f.at), f.kids)
    ensures FrameOk(r, k + 1, f.(kids := AttachTool(f.kids, tool, r.events[k].uuid)))
    ensures FrameLabels(f.(kids := AttachTool(f.kids, tool, r.events[k].uuid))) == FrameLabels(f) + multiset{ToolAt(k)}
  {
    FrameLater(r, k, f);
    NewToolOk(r, k, Some(f.at));
    AttachOk(r, Some(f.at), f.kids, tool, r.events[k].uuid);
    AttachSkillTokens(f.kids, tool, r.events[k].uuid);
    AttachLabels(f.kids, tool, r.events[k].uuid);
    hide KidsOk, OwnShare, SkillTokens, FramePhase, NodeOk, AttachTool, AllLabels, ToolParent;
  }

  function NewTool(e: CostEvent, k: nat): Tool
    requires e.ToolUse?
  {
    Tool(k, FrameId(e), GetOr(e.name, ""), Fine)
  }

  lemma NewToolOk(r: Run, k: nat, parent: Option<nat>)
    requires k < |r.events| && IsTool(r.events[k]) && ToolParent(r, k) == parent
    ensures NodeOk(r, parent, ToolNode(NewTool(r.events[k], k)))
  {
  }

  /** A skill that closes under the frame: listed, and its tokens rolled up. */
  function WithSkill(f: Frame, node: Node): Frame
    requires node.SkillNode?
  {
    f.(tokens := f.tokens.Plus(node.tokens), kids := Append(f.kids, node, None))
  }

  lemma FrameGainsSkill(r: Run, k: nat, f: Frame, node: Node)
    requires k <= |r.events| && FrameOk(r, k, f) && node.SkillNode? && NodeOk(r, Some(f.at), node)
    ensures FrameOk(r, k, WithSkill(f, node))
    ensures FrameLabels(WithSkill(f, node)) == FrameLabels(f) + Labels(node)
  {
    AppendOk(r, Some(f.at), f.kids, node, None);
    SkillTokensSnoc(f.kids.nodes, node);
    AllLabelsSnoc(f.kids.nodes, node);
    PlusAssoc(OwnShare(r, k, ByFrame(f.at)), SkillTokens(f.kids.nodes), node.tokens);
    hide KidsOk, OwnShare, SkillTokens, FramePhase, NodeOk, AllLabels, Labels;
  }

  /** A frame that has left the flight and is not active: its row is final. */
  lemma ClosedNodeOk(r: Run, k: nat, f: Frame, parent: Option<nat>, status: Status)
    requires k <= |r.events| && FrameOk(r, k, f)
    requires ParentOf(r, f.at) == parent && status == StatusOf(r.events, f.at)
    requires k == |r.events| || (f.at !in OpenAt(r.events, k) && ActiveAt(r, k) != Some(f.at))
    ensures NodeOk(r, parent, ClosedNode(f, status))
    ensures Labels(ClosedNode(f, status)) == FrameLabels(f)
  {
    if k < |r.events| {
      Settled(r, f.at, k, |r.events|);
    }
    hide OwnShare, SkillTokens, FramePhase, ParentOf, StatusOf, OpenAt, ActiveAt, GroupsValid, AllLabels;
  }

  // ----- All fields together ----------------------------------------------------------

  datatype TreeBooks = TreeBooks(open: seq<Frame>, active: Option<Active>, buckets: map<string, Kids>,
                         inline: map<string, Inline>, pending: map<string, Option<Usage>>)

  ghost predicate TreeBooksOk(r: Run, k: nat, b: TreeBooks)
    requires k <= |r.events|
  {
    FramesOpen(r, k, b.open) && ActiveOk(r, k, b.active) && BucketsOk(r, b.buckets) && InlinesOk(r, k, b.inline)
    && PendingOk(r.events, Parks(r), k, b.pending) && LabelsOk(r, k, b.open, b.active, b.buckets)
  }

  lemma OpenLater(r: Run, k: nat, open: seq<Frame>)
    requires k < |r.events| && FramesOpen(r, k, open) && OpenAt(r.events, k + 1) == OpenAt(r.events, k)
    requires !r.events[k].AssistantTurn? || forall p | 0 <= p < |open| :: TurnOwner(r, k) != ByFrame(open[p].at)
    ensures FramesOpen(r, k + 1, open)
  {
    hide FrameOk, OpenAt, TurnOwner;
    forall p | 0 <= p < |open| ensures FrameOk(r, k + 1, open[p]) {
      FrameLater(r, k, open[p]);
    }
  }

  lemma ActiveLater(r: Run, k: nat, active: Option<Active>)
    requires k < |r.events| && ActiveOk(r, k, active) && ActiveAt(r, k + 1) == ActiveAt(r, k)
    requires !r.events[k].AssistantTurn? || (active.Some? ==> TurnOwner(r, k) != ByFrame(active.value.frame.at))
    ensures ActiveOk(r, k + 1, active)
  {
    hide FrameOk, ActiveAt, TurnOwner, ParentOf, StatusOf;
    if active.Some? {
      FrameLater(r, k, active.value.frame);
    }
  }

  lemma InlinesLater(r: Run, k: nat, inline: map<string, Inline>)
    requires k < |r.events| && InlinesOk(r, k, inline)
    requires !r.events[k].AssistantTurn? || !TurnOwner(r, k).ByPhase?
    ensures InlinesOk(r, k + 1, inline)
  {
    hide TurnOwner, OwnShare, NodeOk;
    forall p ensures InlineOk(r, k + 1, p, InlineOf(inline, p)) {
      assert InlineOk(r, k, p, InlineOf(inline, p));
      OwnSame(r, k, ByPhase(p));
    }
  }

  lemma ParksFacts(r: Run, k: nat)
    requires k < |r.events|
    ensures Parks(r)[k] <==>
            (r.events[k].AssistantTurn? && OpenAt(r.events, k) == []
             && Truthy(r.events[k].uuid) && r.events[k].uuid.value in DispatchUuids(r.events))
  {
  }

  lemma NoNewLabel(events: seq<CostEvent>, k: nat)
    requires k < |events| && !events[k].ToolUse?
    ensures EventLabels(events, k + 1) == EventLabels(events, k)
  {
    assert LabelOf(events[k], k) == multiset{};
  }

  lemma LabelsKept(r: Run, k: nat, b: TreeBooks, b': TreeBooks)
    requires k < |r.events| && !r.events[k].ToolUse? && LabelsOk(r, k, b.open, b.active, b.buckets)
    requires OpenLabels(b'.open) == OpenLabels(b.open) && ActiveLabels(b'.active) == ActiveLabels(b.active)
    requires b'.buckets == b.buckets
    ensures LabelsOk(r, k + 1, b'.open, b'.active, b'.buckets)
  {
    NoNewLabel(r.events, k);
  }

  // ----- A turn ---------------------------------------------------------------------------

  /** What no turn moves, and the cases of its owner. */
  lemma TurnFacts(r: Run, k: nat)
    requires k < |r.events| && r.events[k].AssistantTurn?
    ensures OpenAt(r.events, k + 1) == OpenAt(r.events, k)
    ensures ActiveAt(r, k + 1) == ActiveAt(r, k) && PhaseAt(r, k + 1) == PhaseAt(r, k)
    ensures var open, owner := OpenAt(r.events, k), TurnOwner(r, k);
            (open != [] ==> !Parks(r)[k] && owner == ByFrame(open[|open| - 1]))
            && (Parks(r)[k] ==> owner == Adopter(r.events, Parks(r), k))
            && (open == [] && !Parks(r)[k] && ActiveAt(r, k).Some? ==> owner == ByFrame(ActiveAt(r, k).value))
            && (open == [] && !Parks(r)[k] && ActiveAt(r, k).None? ==> owner == ByPhase(BucketName(PhaseAt(r, k))))
  {
    hide Adopter, DispatchUuids;
  }

  lemma OpenReplaced(r: Run, k: nat, open: seq<Frame>, p: nat, f: Frame)
    requires k < |r.events| && FramesOpen(r, k, open) && OpenAt(r.events, k + 1) == OpenAt(r.events, k)
    requires p < |open| && f.at == open[p].at && FrameOk(r, k + 1, f)
    requires forall q | 0 <= q < |open| && q != p :: FrameOk(r, k + 1, open[q])
    ensures FramesOpen(r, k + 1, open[p := f])
  {
    hide FrameOk, OpenAt;
  }

  /** The frames but the p-th, when the event is the p-th's or no turn. */
  lemma OthersLater(r: Run, k: nat, open: seq<Frame>, p: nat)
    requires k < |r.events| && FramesOpen(r, k, open) && p < |open|
    requires !r.events[k].AssistantTurn? || TurnOwner(r, k) == ByFrame(open[p].at)
    ensures forall q | 0 <= q < |open| && q != p :: FrameOk(r, k + 1, open[q])
  {
    var at := OpenAt(r.events, k);
    hide FrameOk, OpenAt, TurnOwner;
    forall q | 0 <= q < |open| && q != p ensures FrameOk(r, k + 1, open[q]) {
      assert at[q] != at[p];
      FrameLater(r, k, open[q]);
    }
  }

  /** Inside a frame: the innermost one gains it. */
  lemma TurnInFrame(r: Run, k: nat, b: TreeBooks)
    requires k < |r.events| && r.events[k].AssistantTurn? && TreeBooksOk(r, k, b) && b.open != []
    ensures var p := |b.open| - 1;
            TreeBooksOk(r, k + 1, b.(open := b.open[p := WithTurn(b.open[p], r.events[k])]))
  {
    var p := |b.open| - 1;
    TurnFacts(r, k);
    InnermostGains(r, k, b.open);
    OpenLabelsUpdate(b.open, p, WithTurn(b.open[p], r.events[k]), multiset{});
    LabelsKept(r, k, b, b.(open := b.open[p := WithTurn(b.open[p], r.events[k])]));
    hide FrameOk, BucketsOk, LabelsOk, TurnOwner, OpenAt, ActiveAt, PhaseAt, InlinesOk, PendingOk, WithTurn;
    PendingKept(r.events, Parks(r), k, b.pending);
    InlinesLater(r, k, b.inline);
    assert OpenAt(r.events, k) != [];
    hide FramesOpen;
  }

  function WithTurn(f: Frame, e: CostEvent): Frame
    requires e.AssistantTurn?
  {
    f.(tokens := f.tokens.Plus(UsageOf(e)))
  }

  lemma InnermostGains(r: Run, k: nat, open: seq<Frame>)
    requires k < |r.events| && r.events[k].AssistantTurn? && FramesOpen(r, k, open) && open != []
    ensures var p := |open| - 1;
            FramesOpen(r, k + 1, open[p := WithTurn(open[p], r.events[k])])
    ensures TurnOwner(r, k).ByFrame?
  {
    hide *;
    var p := |open| - 1;
    OpenFrame(r, k, open, p);
    TurnFacts(r, k);
    FrameGainsTurn(r, k, open[p]);
    WithTurnIs(open[p], r.events[k]);
    OthersLater(r, k, open, p);
    OpenReplaced(r, k, open, p, WithTurn(open[p], r.events[k]));
  }

  lemma WithTurnIs(f: Frame, e: CostEvent)
    requires e.AssistantTurn?
    ensures WithTurn(f, e) == f.(tokens := f.tokens.Plus(UsageOf(e)))
  {
    hide UsageOf;
  }

  lemma OpenFrame(r: Run, k: nat, open: seq<Frame>, p: nat)
    requires k <= |r.events| && FramesOpen(r, k, open) && p < |open|
    ensures FrameOk(r, k, open[p]) && |open| == |OpenAt(r.events, k)| && open[p].at == OpenAt(r.events, k)[p]
  {
    hide FrameOk, OpenAt;
  }

  /** At top level, before the dispatch it belongs to: parked. */
  lemma TurnParked(r: Run, k: nat, b: TreeBooks)
    requires k < |r.events| && Parks(r)[k] && TreeBooksOk(r, k, b)
    ensures TreeBooksOk(r, k + 1, b.(pending := b.pending[r.events[k].uuid.value := r.events[k].usage]))
  {
    ParksFacts(r, k);
    TurnFacts(r, k);
    hide TurnOwner, OpenAt, ActiveAt, FrameOk, PhaseAt, InlinesOk, PendingOk, BucketsOk, OpenLabels, BucketLabels, EventLabels, Parks;
    PendingParked(r.events, Parks(r), k, b.pending);
    InlinesLater(r, k, b.inline);
    OpenLater(r, k, b.open);
    ActiveLater(r, k, b.active);
    NoNewLabel(r.events, k);
    hide FramesOpen, ActiveOk;
  }

  /** At top level under an active skill: absorbed, with a narration row if it says anything. */
  lemma TurnInActive(r: Run, k: nat, b: TreeBooks)
    requires k < |r.events| && r.events[k].AssistantTurn? && !Parks(r)[k] && TreeBooksOk(r, k, b)
    requires b.open == [] && b.active.Some?
    ensures TreeBooksOk(r, k + 1, b.(active := Some(ActiveWith(b.active.value, k, r.events[k]))))
  {
    TurnFacts(r, k);
    hide TurnOwner, OpenAt, ActiveAt, FrameOk, AllLabels, ParentOf, StatusOf, PhaseAt, InlinesOk, PendingOk, BucketsOk;
    hide Parks;
    ActiveGains(r, k, b.active.value);
    LabelsKept(r, k, b, b.(active := Some(ActiveWith(b.active.value, k, r.events[k]))));
    PendingKept(r.events, Parks(r), k, b.pending);
    InlinesLater(r, k, b.inline);
    hide ActiveWith, ActiveOk, LabelsOk;
  }

  function ActiveWith(a: Active, k: nat, e: CostEvent): Active
    requires e.AssistantTurn?
  {
    var f := WithTurn(a.frame, e);
    a.(frame := if e.text != "" then f.(kids := Slip(f.kids, TurnNode(k, UsageOf(e)))) else f)
  }

  lemma ActiveGains(r: Run, k: nat, a: Active)
    requires k < |r.events| && r.events[k].AssistantTurn? && ActiveOk(r, k, Some(a))
    requires ActiveAt(r, k + 1) == ActiveAt(r, k) && TurnOwner(r, k) == ByFrame(a.frame.at)
    ensures ActiveOk(r, k + 1, Some(ActiveWith(a, k, r.events[k])))
    ensures FrameLabels(ActiveWith(a, k, r.events[k]).frame) == FrameLabels(a.frame)
  {
    hide TurnOwner, OpenAt, ActiveAt, FrameOk, AllLabels, ParentOf, StatusOf;
    FrameGainsTurn(r, k, a.frame);
    AllLabelsSnoc(a.frame.kids.nodes, TurnNode(k, UsageOf(r.events[k])));
  }

  /** At top level with no skill to claim it. */
  lemma TurnInline(r: Run, k: nat, b: TreeBooks)
    requires k < |r.events| && r.events[k].AssistantTurn? && !Parks(r)[k] && TreeBooksOk(r, k, b)
    requires b.open == [] && b.active.None?
    ensures var p := BucketName(PhaseAt(r, k));
            TreeBooksOk(r, k + 1, b.(inline := b.inline[p := InlineWith(InlineOf(b.inline, p), k, r.events[k])]))
  {
    TurnFacts(r, k);
    hide TurnOwner, OpenAt, ActiveAt, FrameOk, PhaseAt, InlinesOk, PendingOk, BucketsOk, OpenLabels, BucketLabels, EventLabels, Parks;
    PendingKept(r.events, Parks(r), k, b.pending);
    InlineGains(r, k, b.inline, BucketName(PhaseAt(r, k)));
    OpenLater(r, k, b.open);
    ActiveLater(r, k, b.active);
    NoNewLabel(r.events, k);
    hide FramesOpen, ActiveOk;
  }

  function InlineWith(i: Inline, k: nat, e: CostEvent): Inline
    requires e.AssistantTurn?
  {
    Inline(i.tokens.Plus(UsageOf(e)), i.unpriced || !e.priced,
           if e.text != "" then i.turns + [TurnNode(k, UsageOf(e))] else i.turns)
  }

  lemma InlineGains(r: Run, k: nat, inline: map<string, Inline>, p: string)
    requires k < |r.events| && r.events[k].AssistantTurn? && InlinesOk(r, k, inline) && TurnOwner(r, k) == ByPhase(p)
    ensures InlinesOk(r, k + 1, inline[p := InlineWith(InlineOf(inline, p), k, r.events[k])])
  {
    var after := inline[p := InlineWith(InlineOf(inline, p), k, r.events[k])];
    assert InlineOk(r, k, p, InlineOf(inline, p));
    OneInlineGains(r, k, p, InlineOf(inline, p));
    hide TurnOwner, InlineWith, InlineOk;
    forall q ensures InlineOk(r, k + 1, q, InlineOf(after, q)) {
      if q != p {
        OneInlineLater(r, k, q, InlineOf(inline, q));
      }
    }
  }

  lemma OneInlineLater(r: Run, k: nat, p: string, inline: Inline)
    requires k < |r.events| && InlineOk(r, k, p, inline)
    requires !r.events[k].AssistantTurn? || TurnOwner(r, k) != ByPhase(p)
    ensures InlineOk(r, k + 1, p, inline)
  {
    hide TurnOwner, OwnShare, NodeOk;
    OwnSame(r, k, ByPhase(p));
    UnpricedStep(r, k, p);
  }

  lemma UnpricedStep(r: Run, k: nat, p: string)
    requires k < |r.events|
    ensures Unpriced(r, k + 1, p) <==> Unpriced(r, k, p) || UnpricedAt(r, k, p)
  {
    hide UnpricedAt;
    if t :| 0 <= t < k && UnpricedAt(r, t, p) {
      assert 0 <= t < k + 1;
    }
  }

  lemma TurnNodeOk(r: Run, k: nat)
    requires k < |r.events| && r.events[k].AssistantTurn?
    ensures NodeOk(r, None, TurnNode(k, UsageOf(r.events[k])))
  {
  }

  lemma OneInlineGains(r: Run, k: nat, p: string, inline: Inline)
    requires k < |r.events| && r.events[k].AssistantTurn? && InlineOk(r, k, p, inline) && TurnOwner(r, k) == ByPhase(p)
    ensures InlineOk(r, k + 1, p, InlineWith(inline, k, r.events[k]))
  {
    TurnNodeOk(r, k);
    hide TurnOwner, OwnShare, NodeOk, UsageOf, Unpriced;
    UnpricedStep(r, k, p);
    OwnStep(r, k, ByPhase(p));
    var grown := InlineWith(inline, k, r.events[k]);
    forall c | 0 <= c < |grown.turns|
      ensures grown.turns[c].TurnNode? && NodeOk(r, None, grown.turns[c]) && TurnOwner(r, grown.turns[c].at) == ByPhase(p)
    {
      if c < |inline.turns| {
        assert grown.turns[c] == inline.turns[c];
      }
    }
  }

  /** The four ways a new label, or the active skill's, changes place. */
  lemma Tally(o: multiset<Label>, a: multiset<Label>, b: multiset<Label>, x: multiset<Label>)
    ensures (o + x) + multiset{} + (b + a) == o + a + b + x
    ensures (o + x) + a + b == o + a + b + x
    ensures o + (a + x) + b == o + a + b + x
    ensures o + multiset{} + (b + a + x) == o + a + b + x
  {
  }

  // ----- Flushing the active skill ---------------------------------------------------------

  /** The active skill's row is final once it is neither in flight nor active. */
  lemma FlushOk(r: Run, k: nat, buckets: map<string, Kids>, a: Active)
    requires k <= |r.events| && BucketsOk(r, buckets) && FrameOk(r, k, a.frame)
    requires ClosedBy(r.events, a.frame.at).Some? && ParentOf(r, a.frame.at).None? && a.status == StatusOf(r.events, a.frame.at)
    requires k == |r.events| || (a.frame.at !in OpenAt(r.events, k) && ActiveAt(r, k) != Some(a.frame.at))
    ensures BucketsOk(r, Flushed(buckets, Some(a)))
    ensures BucketLabels(Flushed(buckets, Some(a))) == BucketLabels(buckets) + FrameLabels(a.frame)
  {
    var p, node := BucketName(Some(a.frame.phase)), ClosedNode(a.frame, a.status);
    var kids := KidsOf(buckets, p);
    ClosedNodeOk(r, k, a.frame, None, a.status);
    FlushHome(r, k, a.frame);
    assert BucketOk(r, p, kids);
    SlippedOk(r, p, kids, node);
    AllLabelsSnoc(kids.nodes, node);
    assert Flushed(buckets, Some(a)) == buckets[p := Slip(kids, node)];
    hide *;
    BucketGains(buckets, p, Slip(kids, node), FrameLabels(a.frame));
    BucketReplaced(r, buckets, p, Slip(kids, node));
  }

  lemma FlushHome(r: Run, k: nat, f: Frame)
    requires k <= |r.events| && FrameOk(r, k, f) && ClosedBy(r.events, f.at).Some?
    ensures HomeOf(r, f.at) == BucketName(Some(f.phase))
  {
    hide KidsOk, FramePhase, ClosedBy, OpenAt, BucketName;
  }

  lemma SlippedOk(r: Run, p: string, kids: Kids, node: Node)
    requires BucketOk(r, p, kids) && NodeOk(r, None, node) && node.SkillNode? && InBucket(r, p, node)
    ensures BucketOk(r, p, Slip(kids, node))
  {
    hide KidsOk, NodeOk, InBucket;
    SlipOk(r, None, kids, node);
  }

  lemma BucketReplaced(r: Run, buckets: map<string, Kids>, p: string, kids: Kids)
    requires BucketsOk(r, buckets) && BucketOk(r, p, kids)
    ensures BucketsOk(r, buckets[p := kids])
  {
    hide BucketOk;
    var after := buckets[p := kids];
    forall q ensures BucketOk(r, q, KidsOf(after, q)) {
      assert BucketOk(r, q, KidsOf(buckets, q));
    }
  }

  /** Event k ends the active skill's regime. */
  lemma FlushesNow(r: Run, k: nat, buckets: map<string, Kids>, active: Option<Active>)
    requires k < |r.events| && !r.events[k].AssistantTurn? && BucketsOk(r, buckets) && ActiveOk(r, k, active)
    requires ActiveAt(r, k + 1).None?
    ensures BucketsOk(r, Flushed(buckets, active))
    ensures BucketLabels(Flushed(buckets, active)) == BucketLabels(buckets) + ActiveLabels(active)
  {
    hide *;
    if active.Some? {
      assert active == Some(active.value);
      FlushesActive(r, k, buckets, active.value);
    } else {
      FlushesNothing(r, k, buckets);
    }
  }

  lemma FlushesNothing(r: Run, k: nat, buckets: map<string, Kids>)
    ensures Flushed(buckets, None) == buckets
    ensures BucketLabels(buckets) == BucketLabels(buckets) + ActiveLabels(None)
  {
    hide BucketLabels;
  }

  lemma FlushesActive(r: Run, k: nat, buckets: map<string, Kids>, a: Active)
    requires k < |r.events| && !r.events[k].AssistantTurn? && BucketsOk(r, buckets) && ActiveOk(r, k, Some(a))
    requires ActiveAt(r, k + 1).None?
    ensures BucketsOk(r, Flushed(buckets, Some(a)))
    ensures BucketLabels(Flushed(buckets, Some(a))) == BucketLabels(buckets) + ActiveLabels(Some(a))
  {
    hide *;
    ActiveFacts(r, k, a);
    ActiveNotOpen(r, k);
    FrameLater(r, k, a.frame);
    FlushOk(r, k + 1, buckets, a);
    ActiveLabelsSome(a);
  }

  lemma ActiveFacts(r: Run, k: nat, a: Active)
    requires k <= |r.events| && ActiveOk(r, k, Some(a))
    ensures FrameOk(r, k, a.frame) && a.frame.at < |r.events| && IsDispatch(r.events[a.frame.at])
    ensures ActiveAt(r, k) == Some(a.frame.at)
    ensures ClosedBy(r.events, a.frame.at).Some? && ParentOf(r, a.frame.at).None? && a.status == StatusOf(r.events, a.frame.at)
  {
    hide FrameOk, ActiveAt, ClosedBy, ParentOf, StatusOf, IsDispatch;
  }

  lemma ActiveLabelsSome(a: Active)
    ensures ActiveLabels(Some(a)) == FrameLabels(a.frame)
  {
  }

  lemma ActiveNotOpen(r: Run, k: nat)
    requires k < |r.events| && ActiveAt(r, k).Some?
    ensures ActiveAt(r, k).value !in OpenAt(r.events, k + 1)
  {
    hide ActiveAt;
  }

  // ----- A dispatch ------------------------------------------------------------------------------

  function NewFrame(e: CostEvent, k: nat, subagent: bool, phase: string, tokens: Tokens): Frame
    requires e.ToolUse?
  {
    Frame(k, FrameId(e), SkillName(e), subagent, phase, tokens, NoKids)
  }

  lemma NewFrameOk(r: Run, k: nat)
    requires k < |r.events| && IsDispatch(r.events[k])
    ensures FrameOk(r, k + 1,
                    NewFrame(r.events[k], k, OpenAt(r.events, k) != [], FramePhase(r, k),
                             AdoptedBefore(r.events, Adopted(r.events, Parks(r), k), k)))
  {
    hide *;
    NewFrameShare(r, k);
    BareFrameOk(r, k, AdoptedBefore(r.events, Adopted(r.events, Parks(r), k), k));
  }

  lemma BareFrameOk(r: Run, k: nat, tokens: Tokens)
    requires k < |r.events| && IsDispatch(r.events[k]) && tokens == OwnShare(r, k + 1, ByFrame(k))
    ensures FrameOk(r, k + 1, NewFrame(r.events[k], k, OpenAt(r.events, k) != [], FramePhase(r, k), tokens))
  {
    NoKidsOk(r, Some(k));
    hide KidsOk, OpenAt, FramePhase, OwnShare, SkillTokens, IsDispatch;
    PlusEmpty(tokens);
  }

  lemma NoKidsOk(r: Run, parent: Option<nat>)
    ensures KidsOk(r, parent, NoKids) && SkillTokens(NoKids.nodes) == EmptyTokens && AllLabels(NoKids.nodes) == multiset{}
  {
    hide NodeOk;
  }

  lemma NewFrameShare(r: Run, k: nat)
    requires k < |r.events| && IsDispatch(r.events[k])
    ensures OwnShare(r, k + 1, ByFrame(k)) == AdoptedBefore(r.events, Adopted(r.events, Parks(r), k), k)
  {
    TurnOwnersAttribute(r);
    AdoptedShare(r.events, TurnOwners(r), Parks(r), k);
    OwnSame(r, k, ByFrame(k));
    hide Share, TurnOwners, Parks, Adopted, AdoptedBefore;
  }

  lemma DispatchFacts(r: Run, k: nat)
    requires k < |r.events| && IsDispatch(r.events[k])
    ensures OpenAt(r.events, k + 1) == OpenAt(r.events, k) + [k] && ActiveAt(r, k + 1).None? && !Parks(r)[k]
    ensures EventLabels(r.events, k + 1) == EventLabels(r.events, k) + multiset{SkillAt(k)}
  {
  }

  /** A dispatch opens a frame, and at top level flushes the active skill first. */
  lemma Dispatches(r: Run, k: nat, b: TreeBooks)
    requires k < |r.events| && IsDispatch(r.events[k]) && TreeBooksOk(r, k, b)
    ensures var e := r.events[k];
            var f := NewFrame(e, k, b.open != [], FramePhase(r, k), DrainedTokens(b.pending, e.uuid));
            TreeBooksOk(r, k + 1,
                    TreeBooks(b.open + [f], None, Flushed(b.buckets, b.active), b.inline,
                          if Truthy(e.uuid) then b.pending - {e.uuid.value} else b.pending))
  {
    var e := r.events[k];
    var f := NewFrame(e, k, b.open != [], FramePhase(r, k), DrainedTokens(b.pending, e.uuid));
    DispatchFacts(r, k);
    NewFrameOk(r, k);
    hide OpenAt, ActiveAt, Parks, FramePhase, BucketsOk, InlinesOk, Flushed, FrameOk, PendingOk, LabelsOk;
    PendingDrained(r.events, Parks(r), k, b.pending);
    DrainsAdopted(r.events, Parks(r), k, b.pending);
    OpenGains(r, k, b.open, f);
    FlushesNow(r, k, b.buckets, b.active);
    InlinesLater(r, k, b.inline);
    DispatchLabels(r, k, b, f);
    hide FramesOpen;
  }

  lemma DispatchLabels(r: Run, k: nat, b: TreeBooks, f: Frame)
    requires k < |r.events| && IsDispatch(r.events[k]) && LabelsOk(r, k, b.open, b.active, b.buckets)
    requires f.at == k && f.kids == NoKids
    requires BucketLabels(Flushed(b.buckets, b.active)) == BucketLabels(b.buckets) + ActiveLabels(b.active)
    ensures LabelsOk(r, k + 1, b.open + [f], None, Flushed(b.buckets, b.active))
  {
    DispatchFacts(r, k);
    OpenLabelsSnoc(b.open, f);
    assert FrameLabels(f) == multiset{SkillAt(k)};
    Tally(OpenLabels(b.open), ActiveLabels(b.active), BucketLabels(b.buckets), multiset{SkillAt(k)});
    hide OpenLabels, BucketLabels, EventLabels, FrameLabels, Flushed;
  }

  lemma OpenGains(r: Run, k: nat, open: seq<Frame>, f: Frame)
    requires k < |r.events| && IsDispatch(r.events[k]) && FramesOpen(r, k, open)
    requires OpenAt(r.events, k + 1) == OpenAt(r.events, k) + [k] && f.at == k && FrameOk(r, k + 1, f)
    ensures FramesOpen(r, k + 1, open + [f])
  {
    hide OpenAt, FrameOk;
    forall p | 0 <= p < |open| ensures FrameOk(r, k + 1, open[p]) {
      FrameLater(r, k, open[p]);
    }
  }

  // ----- A tool call -----------------------------------------------------------------------------------

  lemma ToolFacts(r: Run, k: nat)
    requires k < |r.events| && IsTool(r.events[k])
    ensures r.events[k].ToolUse? && !IsDispatch(r.events[k])
    ensures OpenAt(r.events, k + 1) == OpenAt(r.events, k) && !Parks(r)[k]
    ensures ToolParent(r, k) == if OpenAt(r.events, k) != [] then Newest(OpenAt(r.events, k)) else ActiveAt(r, k + 1)
    ensures ActiveAt(r, k + 1).Some? ==> ActiveAt(r, k + 1) == ActiveAt(r, k)
    ensures EventLabels(r.events, k + 1) == EventLabels(r.events, k) + multiset{ToolAt(k)}
  {
    hide Marks, PhaseAt;
  }

  /** ListedUnder under the innermost frame. */
  lemma ToolInFrame(r: Run, k: nat, b: TreeBooks)
    requires k < |r.events| && IsTool(r.events[k]) && TreeBooksOk(r, k, b) && b.open != []
    ensures var p := |b.open| - 1;
            GroupsValid(b.open[p].kids)
            && TreeBooksOk(r, k + 1, b.(open := b.open[p := WithTool(b.open[p], k, r.events[k])]))
  {
    var p := |b.open| - 1;
    ToolFacts(r, k);
    FrameGroupsValid(r, k, b.open[p]);
    var f := WithTool(b.open[p], k, r.events[k]);
    hide OpenAt, ActiveAt, Parks, FrameOk, BucketsOk, InlinesOk, PendingOk, ToolParent, LabelsOk;
    FrameGainsTool(r, k, b.open[p], NewTool(r.events[k], k));
    OthersLater(r, k, b.open, p);
    OpenReplaced(r, k, b.open, p, f);
    ToolLabelsInFrame(r, k, b, p, f);
    PendingKept(r.events, Parks(r), k, b.pending);
    InlinesLater(r, k, b.inline);
    assert OpenAt(r.events, k) != [];
    hide FramesOpen, WithTool;
  }

  lemma ToolLabelsInFrame(r: Run, k: nat, b: TreeBooks, p: nat, f: Frame)
    requires k < |r.events| && IsTool(r.events[k]) && LabelsOk(r, k, b.open, b.active, b.buckets)
    requires p < |b.open| && FrameLabels(f) == FrameLabels(b.open[p]) + multiset{ToolAt(k)}
    ensures LabelsOk(r, k + 1, b.open[p := f], b.active, b.buckets)
  {
    ToolFacts(r, k);
    OpenLabelsUpdate(b.open, p, f, multiset{ToolAt(k)});
    Tally(OpenLabels(b.open), ActiveLabels(b.active), BucketLabels(b.buckets), multiset{ToolAt(k)});
    hide OpenLabels, BucketLabels, EventLabels, FrameLabels, ActiveLabels;
  }

  function WithTool(f: Frame, k: nat, e: CostEvent): Frame
    requires e.ToolUse? && GroupsValid(f.kids)
  {
    f.(kids := AttachTool(f.kids, NewTool(e, k), e.uuid))
  }

  lemma FrameGroupsValid(r: Run, k: nat, f: Frame)
    requires k <= |r.events| && FrameOk(r, k, f)
    ensures GroupsValid(f.kids)
  {
    hide GroupsValid, FramePhase;
  }

  /** ListedUnder under the active skill. */
  lemma ToolInActive(r: Run, k: nat, b: TreeBooks)
    requires k < |r.events| && IsTool(r.events[k]) && TreeBooksOk(r, k, b) && b.open == []
    requires ActiveAt(r, k + 1).Some?
    ensures b.active.Some? && GroupsValid(b.active.value.frame.kids)
    ensures TreeBooksOk(r, k + 1, b.(active := Some(b.active.value.(frame := WithTool(b.active.value.frame, k, r.events[k])))))
  {
    hide *;
    TreeBooksParts(r, k, b);
    ToolFacts(r, k);
    var a := b.active.value;
    assert b.active == Some(a);
    ActiveFacts(r, k, a);
    FrameGroupsValid(r, k, a.frame);
    FrameGainsTool(r, k, a.frame, NewTool(r.events[k], k));
    WithToolIs(a.frame, k, r.events[k]);
    var after := a.(frame := WithTool(a.frame, k, r.events[k]));
    ActiveSwapped(r, k + 1, a, after.frame);
    ToolLabelsInActive(r, k, b, after);
    PendingKept(r.events, Parks(r), k, b.pending);
    InlinesLater(r, k, b.inline);
    OpenLater(r, k, b.open);
    TreeBooksTogether(r, k + 1, b.(active := Some(after)));
  }

  lemma WithToolIs(f: Frame, k: nat, e: CostEvent)
    requires e.ToolUse? && GroupsValid(f.kids)
    ensures WithTool(f, k, e) == f.(kids := AttachTool(f.kids, NewTool(e, k), e.uuid))
  {
    hide AttachTool, NewTool;
  }

  lemma ActiveSwapped(r: Run, k: nat, a: Active, f: Frame)
    requires k <= |r.events| && ActiveAt(r, k) == Some(f.at) && FrameOk(r, k, f)
    requires f.at < |r.events| && IsDispatch(r.events[f.at])
    requires ClosedBy(r.events, f.at).Some? && ParentOf(r, f.at).None? && a.status == StatusOf(r.events, f.at)
    ensures ActiveOk(r, k, Some(a.(frame := f)))
  {
    hide FrameOk, ActiveAt, ClosedBy, ParentOf, StatusOf, IsDispatch;
  }

  lemma TreeBooksParts(r: Run, k: nat, b: TreeBooks)
    requires k <= |r.events| && TreeBooksOk(r, k, b)
    ensures FramesOpen(r, k, b.open) && ActiveOk(r, k, b.active) && BucketsOk(r, b.buckets) && InlinesOk(r, k, b.inline)
    ensures PendingOk(r.events, Parks(r), k, b.pending) && LabelsOk(r, k, b.open, b.active, b.buckets)
    ensures b.active.Some? == ActiveAt(r, k).Some? && |b.open| == |OpenAt(r.events, k)|
  {
    hide OpenAt, ActiveAt, FrameOk, BucketsOk, InlinesOk, PendingOk, LabelsOk, Parks;
  }

  lemma TreeBooksTogether(r: Run, k: nat, b: TreeBooks)
    requires k <= |r.events| && FramesOpen(r, k, b.open) && ActiveOk(r, k, b.active) && BucketsOk(r, b.buckets)
    requires InlinesOk(r, k, b.inline) && PendingOk(r.events, Parks(r), k, b.pending)
    requires LabelsOk(r, k, b.open, b.active, b.buckets)
    ensures TreeBooksOk(r, k, b)
  {
    hide FramesOpen, ActiveOk, BucketsOk, InlinesOk, PendingOk, LabelsOk, Parks;
  }

  lemma ToolLabelsInActive(r: Run, k: nat, b: TreeBooks, a: Active)
    requires k < |r.events| && IsTool(r.events[k]) && LabelsOk(r, k, b.open, b.active, b.buckets)
    requires b.active.Some? && FrameLabels(a.frame) == FrameLabels(b.active.value.frame) + multiset{ToolAt(k)}
    ensures LabelsOk(r, k + 1, b.open, Some(a), b.buckets)
  {
    ToolFacts(r, k);
    ActiveLabelsSome(a);
    ActiveLabelsSome(b.active.value);
    assert b.active == Some(b.active.value);
    Tally(OpenLabels(b.open), ActiveLabels(b.active), BucketLabels(b.buckets), multiset{ToolAt(k)});
    hide OpenLabels, BucketLabels, EventLabels, FrameLabels, ActiveLabels;
  }

  /** ListedUnder in the current phase's bucket; a marker of another phase flushes first. */
  lemma ToolInBucket(r: Run, k: nat, b: TreeBooks)
    requires k < |r.events| && IsTool(r.events[k]) && TreeBooksOk(r, k, b) && b.open == []
    requires ActiveAt(r, k + 1).None?
    ensures var flushed, p := Flushed(b.buckets, b.active), GetOr(PhaseAt(r, k + 1), ORCHESTRATION);
            GroupsValid(KidsOf(flushed, p))
            && TreeBooksOk(r, k + 1, b.(active := None,
                                    buckets := flushed[p := AttachTool(KidsOf(flushed, p), NewTool(r.events[k], k), r.events[k].uuid)]))
  {
    var flushed, p := Flushed(b.buckets, b.active), GetOr(PhaseAt(r, k + 1), ORCHESTRATION);
    ToolFacts(r, k);
    hide OpenAt, ActiveAt, Parks, FrameOk, InlinesOk, PendingOk, ToolParent, LabelsOk, Flushed, PhaseAt;
    FlushesNow(r, k, b.buckets, b.active);
    BucketGainsTool(r, k, flushed, p);
    ToolLabelsInBucket(r, k, b, flushed[p := AttachTool(KidsOf(flushed, p), NewTool(r.events[k], k), r.events[k].uuid)]);
    hide BucketsOk, AttachTool, KidsOf;
    PendingKept(r.events, Parks(r), k, b.pending);
    InlinesLater(r, k, b.inline);
  }

  lemma ToolLabelsInBucket(r: Run, k: nat, b: TreeBooks, buckets: map<string, Kids>)
    requires k < |r.events| && IsTool(r.events[k]) && LabelsOk(r, k, b.open, b.active, b.buckets)
    requires BucketLabels(buckets) == BucketLabels(b.buckets) + ActiveLabels(b.active) + multiset{ToolAt(k)}
    ensures LabelsOk(r, k + 1, b.open, None, buckets)
  {
    ToolFacts(r, k);
    Tally(OpenLabels(b.open), ActiveLabels(b.active), BucketLabels(b.buckets), multiset{ToolAt(k)});
    hide OpenLabels, BucketLabels, EventLabels, FrameLabels;
  }

  lemma BucketGainsTool(r: Run, k: nat, buckets: map<string, Kids>, p: string)
    requires k < |r.events| && IsTool(r.events[k]) && BucketsOk(r, buckets)
    requires ToolParent(r, k).None? && GetOr(PhaseAt(r, k + 1), ORCHESTRATION) == p
    ensures GroupsValid(KidsOf(buckets, p))
    ensures var kids := AttachTool(KidsOf(buckets, p), NewTool(r.events[k], k), r.events[k].uuid);
            BucketsOk(r, buckets[p := kids])
            && BucketLabels(buckets[p := kids]) == BucketLabels(buckets) + multiset{ToolAt(k)}
  {
    var kids, tool, turn := KidsOf(buckets, p), NewTool(r.events[k], k), r.events[k].uuid;
    assert BucketOk(r, p, kids);
    NewToolOk(r, k, None);
    AttachOk(r, None, kids, tool, turn);
    AttachLabels(kids, tool, turn);
    BucketPlaces(r, p, kids, tool, turn);
    hide ToolParent, PhaseAt, BucketLabels, AllLabels;
    BucketGains(buckets, p, AttachTool(kids, tool, turn), multiset{ToolAt(k)});
    BucketReplaced(r, buckets, p, AttachTool(kids, tool, turn));
  }

  /** Grouping keeps every tool in its bucket. */
  lemma BucketPlaces(r: Run, p: string, kids: Kids, tool: Tool, turn: Option<string>)
    requires GroupsValid(kids) && InBucket(r, p, ToolNode(tool))
    requires forall c | 0 <= c < |kids.nodes| :: InBucket(r, p, kids.nodes[c])
    ensures var after := AttachTool(kids, tool, turn).nodes;
            forall c | 0 <= c < |after| :: InBucket(r, p, after[c])
  {
    hide PhaseAt, HomeOf;
    if kids.lastGroup.Some? {
      assert InBucket(r, p, kids.nodes[kids.lastGroup.value]);
    }
  }
}
