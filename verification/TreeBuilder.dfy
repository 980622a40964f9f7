/**
 The event loop of apps/ingest/structure_aggregator.py, `aggregate`, proved
 against the rules of module Structure.
 */
module TreeBuilder {
  import opened Collections
  import opened Options
  import opened Transcript
  import opened Matching
  import opened Attribution
  import opened Registry
  import opened Structure
  import opened Tree
  import opened TreeSteps
  import opened TreeResults
  import opened TreeEnd
  import opened TreeRows
  import opened TreeLists

  /** The pre-scan of task lists. */
  method ScanTasks(index: Index, events: seq<CostEvent>) returns (tasks: map<nat, string>)
    ensures tasks == TaskPhases(Run(index, events), |events|).1
  {
    ghost var r := Run(index, events);
    tasks := map[];
    var count: nat := 0;
    for k := 0 to |events|
      invariant (count as int, tasks) == TaskPhases(r, k)
    {
      var e := events[k];
      if e.ToolUse? && e.name == Some("TaskCreate") {
        count := count + 1;
        if e.toolInput.subjectSlug.Some? {
          var entry := Lookup(index, e.toolInput.subjectSlug.value);
          if entry.Some? {
            tasks := tasks[count := entry.value];
          }
        }
      }
    }
  }

  // ----- Facts for the loop --------------------------------------------------------

  lemma StartsEmpty(r: Run)
    ensures TreeBooksOk(r, 0, TreeBooks([], None, map[], map[], map[]))
  {
    assert FramesOpen(r, 0, []) && ActiveOk(r, 0, None);
    hide NodeOk, TurnOwners, Parks;
    assert PendingOk(r.events, Parks(r), 0, map[]);
    assert BucketsOk(r, map[]) && InlinesOk(r, 0, map[]);
    assert LabelsOk(r, 0, [], None, map[]);
  }

  lemma ParksNow(r: Run, k: nat, b: TreeBooks)
    requires k < |r.events| && r.events[k].AssistantTurn? && TreeBooksOk(r, k, b)
    ensures Parks(r)[k] <==> b.open == [] && r.events[k].uuid.Some? && r.events[k].uuid.value in DispatchUuids(r.events)
  {
    InnermostPhase(r, k, b);
    ParksFacts(r, k);
    hide OpenAt, TreeBooksOk, Parks;
  }

  lemma DispatchPhase(r: Run, k: nat, b: TreeBooks)
    requires k < |r.events| && IsDispatch(r.events[k]) && TreeBooksOk(r, k, b)
    ensures var entry := Lookup(r.index, SkillName(r.events[k]));
            (FramePhase(r, k) == if entry.Some? then entry.value
                                 else if b.open != [] then b.open[|b.open| - 1].phase
                                 else GetOr(PhaseAt(r, k), "_other"))
            && PhaseAt(r, k + 1) == if entry.Some? && b.open == [] then entry else PhaseAt(r, k)
    ensures PhaseAt(r, k).Some? ==> GetOr(PhaseAt(r, k), "_other") == PhaseAt(r, k).value
    ensures PhaseAt(r, k).None? ==> GetOr(PhaseAt(r, k), "_other") == "_other"
  {
    InnermostPhase(r, k, b);
    assert Marks(r, k) == "";
    hide OpenAt, TreeBooksOk, Marks, Lookup;
  }

  lemma InnermostPhase(r: Run, k: nat, b: TreeBooks)
    requires k <= |r.events| && TreeBooksOk(r, k, b)
    ensures (b.open == []) == (OpenAt(r.events, k) == [])
    ensures b.open != [] ==> b.open[|b.open| - 1].phase == FramePhase(r, OpenAt(r.events, k)[|OpenAt(r.events, k)| - 1])
  {
    hide OpenAt, FramePhase, ActiveOk, BucketsOk, InlinesOk, PendingOk, LabelsOk, OwnShare, SkillTokens, KidsOk;
    assert FramesOpen(r, k, b.open);
  }

  lemma NothingActive(r: Run, k: nat, b: TreeBooks)
    requires k <= |r.events| && TreeBooksOk(r, k, b)
    ensures b.open != [] ==> b.active.None?
    ensures b.active.None? ==> b.active == None && Flushed(b.buckets, b.active) == b.buckets
  {
    hide FrameOk, BucketsOk, InlinesOk, PendingOk, LabelsOk;
  }

  /** What a marker at top level does to the phase and to the active skill. */
  lemma MarkerFacts(r: Run, k: nat, b: TreeBooks)
    requires k < |r.events| && IsTool(r.events[k]) && TreeBooksOk(r, k, b)
    ensures var phase := if b.open == [] then MarkedPhase(TaskPhases(r, |r.events|).1, r.events[k]) else "";
            PhaseAt(r, k + 1) == (if phase != "" then Some(phase) else PhaseAt(r, k))
            && ActiveAt(r, k + 1) == (if phase != "" && Some(phase) != PhaseAt(r, k) then None else ActiveAt(r, k))
    ensures b.active.Some? == ActiveAt(r, k).Some?
    ensures b.open != [] ==> b.active.None?
    ensures b.active.None? ==> b.active == None && Flushed(b.buckets, b.active) == b.buckets
  {
    InnermostPhase(r, k, b);
    NothingActive(r, k, b);
    hide OpenAt, FrameOk, BucketsOk, InlinesOk, PendingOk, LabelsOk, MarkedPhase, TaskPhases, Flushed;
    assert ActiveOk(r, k, b.active);
  }

  lemma ResultPhase(r: Run, k: nat)
    requires k < |r.events| && r.events[k].ToolResult?
    ensures PhaseAt(r, k + 1) == PhaseAt(r, k)
  {
    assert Marks(r, k) == "";
    hide Marks;
  }

  lemma Kinds(e: CostEvent)
    ensures IsDispatch(e) || IsTool(e) ==> e.ToolUse?
  {
  }

  lemma OpenIds(r: Run, k: nat, open: seq<Frame>)
    requires k <= |r.events| && FramesOpen(r, k, open)
    ensures |open| == |OpenAt(r.events, k)|
    ensures forall p | 0 <= p < |open| :: OpenAt(r.events, k)[p] < |r.events| && r.events[OpenAt(r.events, k)[p]].ToolUse?
                                          && open[p].id == FrameId(r.events[OpenAt(r.events, k)[p]])
  {
    hide OpenAt, KidsOk, FramePhase, OwnShare, SkillTokens;
  }

  lemma FoundBy(nodes: seq<Node>, found: Option<Place>, e: CostEvent)
    requires e.ToolResult?
    requires found.Some? ==> Stands(nodes, found.value) && Truthy(e.matched) && Some(ToolAtPlace(nodes, found.value).id) == e.matched
    requires Truthy(e.matched) ==> forall place ::
               Stands(nodes, place) && Some(ToolAtPlace(nodes, place).id) == e.matched ==> found.Some? && !Before(found.value, place)
    ensures Found(nodes, found, e) && Latest(nodes, found, e.matched)
  {
    hide Stands, ToolAtPlace, Before, Truthy;
  }

  lemma TurnKids(b: TreeBooks, p: nat, e: CostEvent)
    requires p < |b.open| && e.AssistantTurn?
    ensures SameLists(b, b.(open := b.open[p := WithTurn(b.open[p], e)]))
  {
  }

  lemma SamePending(b: TreeBooks, pending: map<string, Option<Usage>>)
    ensures SameLists(b, b.(pending := pending))
  {
  }

  lemma NewFrameIs(e: CostEvent, k: nat, subagent: bool, phase: string, tokens: Tokens)
    requires e.ToolUse?
    ensures NewFrame(e, k, subagent, phase, tokens).at == k && NewFrame(e, k, subagent, phase, tokens).kids == NoKids
  {
  }

  class Builder {
    const index: Index
    const dispatchUuids: set<string>
    const tasks: map<nat, string>
    var open: seq<Frame>
    var active: Option<Active>
    var buckets: map<string, Kids>
    var inline: map<string, Inline>
    var pending: map<string, Option<Usage>>
    var currentPhase: Option<string>
    var totals: Tokens

    ghost predicate Reads(r: Run) {
      index == r.index && dispatchUuids == DispatchUuids(r.events) && tasks == TaskPhases(r, |r.events|).1
    }

    /** Every variable holds exactly what the rules say of the first k events. */
    ghost predicate Holds(r: Run, k: nat)
      requires k <= |r.events|
      reads this
    {
      Reads(r) && TreeBooksOk(r, k, TreeBooks(open, active, buckets, inline, pending)) && BooksNeat(r, k, TreeBooks(open, active, buckets, inline, pending))
      && currentPhase == PhaseAt(r, k) && totals == Total(r.events, k)
    }

    constructor (index: Index, events: seq<CostEvent>, tasks: map<nat, string>)
      requires tasks == TaskPhases(Run(index, events), |events|).1
      ensures Holds(Run(index, events), 0)
    {
      this.index, this.tasks, dispatchUuids := index, tasks, DispatchUuids(events);
      open, active, buckets, inline, pending := [], None, map[], map[], map[];
      currentPhase, totals := None, EmptyTokens;
      new;
      StartsEmpty(Run(index, events));
      BooksStart(Run(index, events));
      hide TreeBooksOk, BooksNeat;
    }

    lemma HoldsFacts(r: Run, k: nat)
      requires k <= |r.events| && Holds(r, k)
      ensures index == r.index && dispatchUuids == DispatchUuids(r.events) && tasks == TaskPhases(r, |r.events|).1
      ensures TreeBooksOk(r, k, TreeBooks(open, active, buckets, inline, pending))
      ensures BooksNeat(r, k, TreeBooks(open, active, buckets, inline, pending))
      ensures currentPhase == PhaseAt(r, k) && totals == Total(r.events, k)
      ensures k < |r.events| ==> Total(r.events, k + 1) == totals.Plus(UsageOf(r.events[k]))
      ensures k < |r.events| && !r.events[k].AssistantTurn? ==> Total(r.events, k + 1) == totals
    {
      hide TreeBooksOk, BooksNeat, PhaseAt;
      PlusEmpty(totals);
    }

    lemma AtEnd(r: Run)
      requires Holds(r, |r.events|)
      ensures InlinesOk(r, |r.events|, inline) && InlinesNeat(r, |r.events|, inline) && totals == Total(r.events, |r.events|)
    {
      BooksParts(r, |r.events|, TreeBooks(open, active, buckets, inline, pending));
      hide BooksNeat, InlinesNeat, FramesOpen, ActiveOk, BucketsOk, InlinesOk, PendingOk, LabelsOk, PhaseAt, Total;
    }

    lemma HoldsAgain(r: Run, k: nat)
      requires index == r.index && dispatchUuids == DispatchUuids(r.events) && tasks == TaskPhases(r, |r.events|).1
      requires k <= |r.events| && TreeBooksOk(r, k, TreeBooks(open, active, buckets, inline, pending))
      requires BooksNeat(r, k, TreeBooks(open, active, buckets, inline, pending))
      requires currentPhase == PhaseAt(r, k) && totals == Total(r.events, k)
      ensures Holds(r, k)
    {
      hide TreeBooksOk, BooksNeat, PhaseAt, Total;
    }

    /** Attaches the active skill to its phase, `_flush_pending`. */
    method Flush()
      modifies this`active, this`buckets
      ensures active.None? && buckets == Flushed(old(buckets), old(active))
    {
      if active.Some? {
        var a := active.value;
        var p := BucketName(Some(a.frame.phase));
        active := None;
        EnsurePhase(p);
        buckets := buckets[p := Slip(buckets[p], ClosedNode(a.frame, a.status))];
      }
    }

    method EnsurePhase(p: string)
      modifies this`buckets
      ensures p in buckets && buckets == old(buckets)[p := KidsOf(old(buckets), p)]
    {
      if p !in buckets {
        buckets := buckets[p := NoKids];
      } else {
        assert buckets == buckets[p := buckets[p]];
      }
    }

    /** Takes the usage parked for the dispatch that is opening. */
    method Drain(uuid: Option<string>) returns (tokens: Tokens)
      modifies this`pending
      ensures tokens == DrainedTokens(old(pending), uuid)
      ensures pending == if Truthy(uuid) then old(pending) - {uuid.value} else old(pending)
    {
      tokens := EmptyTokens;
      if Truthy(uuid) {
        if uuid.value in pending {
          tokens := tokens.Plus(Counted(pending[uuid.value]));
          PlusEmpty(Counted(pending[uuid.value]));
          pending := pending - {uuid.value};
        } else {
          assert pending - {uuid.value} == pending;
        }
      }
    }

    method Turn(ghost r: Run, k: nat, e: CostEvent)
      requires k < |r.events| && r.events[k] == e && e.AssistantTurn? && Holds(r, k)
      modifies this`open, this`active, this`inline, this`pending, this`totals
      ensures Holds(r, k + 1)
    {
      hide *;
      ghost var b := TreeBooks(open, active, buckets, inline, pending);
      HoldsFacts(r, k);
      TurnFacts(r, k);
      ParksNow(r, k, b);
      totals := totals.Plus(UsageOf(e));
      if open != [] {
        TurnInFrame(r, k, b);
        var p := |open| - 1;
        TurnKids(b, p, e);
        NoneActive(r, k, b);
        NeatUnsaid(r, k, b, b.(open := b.open[p := WithTurn(b.open[p], e)]));
        open := open[p := WithTurn(open[p], e)];
      } else if e.uuid.Some? && e.uuid.value in dispatchUuids {
        TurnParked(r, k, b);
        SamePending(b, b.pending[e.uuid.value := e.usage]);
        NeatUnsaid(r, k, b, b.(pending := b.pending[e.uuid.value := e.usage]));
        pending := pending[e.uuid.value := e.usage];
      } else if active.Some? {
        TurnInActive(r, k, b);
        NeatTurnInActive(r, k, b);
        active := Some(ActiveWith(active.value, k, e));
      } else {
        TurnInline(r, k, b);
        NeatTurnInline(r, k, b);
        var p := BucketName(currentPhase);
        inline := inline[p := InlineWith(InlineOf(inline, p), k, e)];
      }
      HoldsAgain(r, k + 1);
    }

    method Dispatch(ghost r: Run, k: nat, e: CostEvent)
      requires k < |r.events| && r.events[k] == e && IsDispatch(e) && Holds(r, k)
      modifies this`open, this`active, this`buckets, this`pending, this`currentPhase, this`totals
      ensures Holds(r, k + 1)
    {
      hide *;
      ghost var b := TreeBooks(open, active, buckets, inline, pending);
      HoldsFacts(r, k);
      Kinds(e);
      DispatchPhase(r, k, b);
      Dispatches(r, k, b);
      if open == [] {
        Flush();
      } else {
        NothingActive(r, k, b);
      }
      var entry := Lookup(index, SkillName(e));
      var phase;
      if entry.Some? {
        phase := entry.value;
        if open == [] {
          currentPhase := entry;
        }
      } else if open != [] {
        phase := open[|open| - 1].phase;
      } else if currentPhase.Some? {
        phase := currentPhase.value;
      } else {
        phase := "_other";
      }
      var tokens := Drain(e.uuid);
      NewFrameIs(e, k, open != [], phase, tokens);
      NeatDispatch(r, k, b, NewFrame(e, k, open != [], phase, tokens), pending);
      open := open + [NewFrame(e, k, open != [], phase, tokens)];
      HoldsAgain(r, k + 1);
    }

    method Tool(ghost r: Run, k: nat, e: CostEvent)
      requires k < |r.events| && r.events[k] == e && IsTool(e) && Holds(r, k)
      modifies this`open, this`active, this`buckets, this`currentPhase
      ensures Holds(r, k + 1)
    {
      hide *;
      ghost var b := TreeBooks(open, active, buckets, inline, pending);
      HoldsFacts(r, k);
      Kinds(e);
      ToolFacts(r, k);
      MarkerFacts(r, k, b);
      if open == [] {
        var phase := MarkedPhase(tasks, e);
        if phase != "" {
          if Some(phase) != currentPhase {
            Flush();
          }
          currentPhase := Some(phase);
        }
      }
      if open != [] {
        ToolInFrame(r, k, b);
        NeatToolInFrame(r, k, b);
        var p := |open| - 1;
        open := open[p := WithTool(open[p], k, e)];
      } else if active.Some? {
        ToolInActive(r, k, b);
        NeatToolInActive(r, k, b);
        active := Some(active.value.(frame := WithTool(active.value.frame, k, e)));
      } else {
        ToolInBucket(r, k, b);
        NeatToolInBucket(r, k, b);
        var p := GetOr(currentPhase, ORCHESTRATION);
        EnsurePhase(p);
        ghost var flushed := Flushed(b.buckets, b.active);
        buckets := buckets[p := AttachTool(buckets[p], NewTool(e, k), e.uuid)];
        assert buckets == flushed[p := AttachTool(KidsOf(flushed, p), NewTool(e, k), e.uuid)];
      }
      HoldsAgain(r, k + 1);
    }

    /** The last open frame with the given id, or -1. */
    method FindFrame(ghost r: Run, ghost k: nat, id: Option<string>) returns (p: int)
      requires k <= |r.events| && FramesOpen(r, k, open)
      ensures -1 <= p < |open| && p == LastWith(r.events, OpenAt(r.events, k), id)
    {
      hide *;
      OpenIds(r, k, open);
      p := -1;
      for i := |open| downto 0
        invariant forall q | i <= q < |open| :: Some(open[q].id) != id
      {
        if Some(open[i].id) == id {
          p := i;
          break;
        }
      }
      LastWithIs(r.events, OpenAt(r.events, k), id, p);
    }

    method Result(ghost r: Run, k: nat, e: CostEvent)
      requires k < |r.events| && r.events[k] == e && e.ToolResult? && Holds(r, k)
      modifies this`open, this`active, this`buckets
      ensures Holds(r, k + 1)
    {
      hide *;
      ghost var b := TreeBooks(open, active, buckets, inline, pending);
      HoldsFacts(r, k);
      OpenLength(r, k, b);
      ResultPhase(r, k);
      var p := FindFrame(r, k, e.matched);
      if p >= 0 && |open| > 1 {
        ClosesNested(r, k, b, p);
        NeatClosesNested(r, k, b, p);
        FoldedIs(open, p, Verdict(e));
        var f := open[p];
        open := Pop(open, p);
        var n := |open| - 1;
        open := open[n := WithSkill(open[n], ClosedNode(f, Verdict(e)))];
      } else if p >= 0 {
        ClosesTop(r, k, b);
        NeatClosesTop(r, k, b);
        NothingActive(r, k, b);
        assert Pop(open, p) == [];
        var f := open[p];
        open := Pop(open, p);
        Flush();
        active := Some(Staged(f, Verdict(e)));
      } else {
        Mark(r, k, e);
      }
      HoldsAgain(r, k + 1);
    }

    /** A result of a plain tool call: its row is looked up where work lands now. */
    method Mark(ghost r: Run, k: nat, e: CostEvent)
      requires k < |r.events| && r.events[k] == e && e.ToolResult? && Holds(r, k)
      requires LastWith(r.events, OpenAt(r.events, k), e.matched) < 0
      modifies this`open, this`active, this`buckets
      ensures TreeBooksOk(r, k + 1, TreeBooks(open, active, buckets, inline, pending))
      ensures BooksNeat(r, k + 1, TreeBooks(open, active, buckets, inline, pending))
    {
      hide *;
      ghost var b := TreeBooks(open, active, buckets, inline, pending);
      HoldsFacts(r, k);
      if open != [] {
        var p := |open| - 1;
        var found := FindTool(open[p].kids.nodes, e.matched);
        FoundBy(open[p].kids.nodes, found, e);
        MarksInFrame(r, k, b, found);
        NeatMarksInFrame(r, k, b, found);
        open := open[p := MarkFrame(open[p], found, e)];
      } else if active.Some? {
        var a := active.value;
        var found := FindTool(a.frame.kids.nodes, e.matched);
        FoundBy(a.frame.kids.nodes, found, e);
        MarksInActive(r, k, b, found);
        NeatMarksInActive(r, k, b, found);
        active := Some(a.(frame := MarkFrame(a.frame, found, e)));
      } else {
        var p := BucketName(currentPhase);
        EnsurePhase(p);
        var found := FindTool(buckets[p].nodes, e.matched);
        FoundBy(buckets[p].nodes, found, e);
        MarksInBucket(r, k, b, found, p);
        NeatMarksInBucket(r, k, b, found, p);
        buckets := buckets[p := MarkKids(buckets[p], found, e)];
        assert buckets == b.buckets[p := MarkKids(KidsOf(b.buckets, p), found, e)];
      }
    }

    method Step(ghost r: Run, k: nat, e: CostEvent)
      requires k < |r.events| && r.events[k] == e && Holds(r, k)
      modifies this
      ensures Holds(r, k + 1)
    {
      if e.AssistantTurn? {
        Turn(r, k, e);
      } else if IsDispatch(e) {
        Dispatch(r, k, e);
      } else if e.ToolUse? {
        Tool(r, k, e);
      } else {
        Result(r, k, e);
      }
    }

    /** Lists what is still in flight as incomplete, and flushes the active skill. */
    method Finish(ghost r: Run)
      requires Holds(r, |r.events|)
      modifies this`open, this`active, this`buckets
      ensures BucketsOk(r, buckets) && BucketLabels(buckets) == EventLabels(r.events, |r.events|)
      ensures BucketsDone(r, 2 * |r.events| + 1, buckets)
    {
      hide *;
      HoldsFacts(r, |r.events|);
      EndStarts(r, TreeBooks(open, active, buckets, inline, pending));
      NeatEndStarts(r, TreeBooks(open, active, buckets, inline, pending));
      while open != []
        invariant EndOk(r, open, active, buckets) && EndNeat(r, open, active, buckets)
        decreases |open|
      {
        var last := |open| - 1;
        var f, node := open[last], ClosedNode(open[last], Incomplete);
        if last > 0 {
          NeatEndNested(r, open, active, buckets);
          EndNested(r, open, active, buckets);
          LastFolded(open);
          open := open[..last];
          open := open[last - 1 := WithSkill(open[last - 1], node)];
        } else {
          NeatEndTop(r, open, active, buckets);
          EndTop(r, open, active, buckets);
          ListedUnderIs(buckets, f);
          open := open[..last];
          ghost var before := buckets;
          EnsurePhase(f.phase);
          buckets := buckets[f.phase := Append(buckets[f.phase], node, None)];
          assert buckets == before[f.phase := Append(KidsOf(before, f.phase), node, None)];
        }
      }
      EndFlush(r, active, buckets);
      NeatEndFlush(r, active, buckets);
      Flush();
    }
  }
}
