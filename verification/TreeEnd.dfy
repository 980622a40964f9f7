/**
 The end of the stream: frames still in flight are listed as incomplete, each
 under the one below it, and the active skill is flushed.
 */
module TreeEnd {
  import opened Collections
  import opened Options
  import opened Transcript
  import opened Matching
  import opened Attribution
  import opened Structure
  import opened Tree
  import opened TreeSteps
  import opened TreeResults

  /** The oldest |open| frames are still to be listed. */
  ghost predicate EndOk(r: Run, open: seq<Frame>, active: Option<Active>, buckets: map<string, Kids>) {
    var n := |r.events|;
    |open| <= |OpenAt(r.events, n)|
    && (forall p | 0 <= p < |open| :: open[p].at == OpenAt(r.events, n)[p] && FrameOk(r, n, open[p]))
    && ActiveOk(r, n, active) && BucketsOk(r, buckets) && LabelsOk(r, n, open, active, buckets)
  }

  lemma EndStarts(r: Run, b: TreeBooks)
    requires TreeBooksOk(r, |r.events|, b)
    ensures EndOk(r, b.open, b.active, b.buckets)
  {
    hide OpenAt, FrameOk, ActiveOk, BucketsOk, LabelsOk, InlinesOk, PendingOk;
    assert FramesOpen(r, |r.events|, b.open);
  }

  /** What the stream settles about a frame it never closes. */
  lemma NeverCloses(r: Run, p: nat)
    requires p < |OpenAt(r.events, |r.events|)|
    ensures var open := OpenAt(r.events, |r.events|);
            var i := open[p];
            StatusOf(r.events, i) == Incomplete && HomeOf(r, i) == FramePhase(r, i) && ClosedBy(r.events, i).None?
            && ParentOf(r, i) == if p == 0 then None else Some(open[p - 1])
  {
    var open := OpenAt(r.events, |r.events|);
    assert open[p] in open && Ascending(open);
    hide OpenAt, Scan, FramePhase, Below;
    InFlight(r.events, |r.events|, open[p]);
    BelowAt(open, p);
  }

  lemma {:induction false} BelowAt(open: seq<nat>, p: nat)
    requires Ascending(open) && p < |open|
    ensures Below(open, open[p]) == if p == 0 then None else Some(open[p - 1])
  {
    var n := |open| - 1;
    if p < n {
      assert open[p] != open[n];
      BelowAt(open[..n], p);
    }
  }

  lemma EndFrame(r: Run, open: seq<Frame>, active: Option<Active>, buckets: map<string, Kids>, p: nat)
    requires EndOk(r, open, active, buckets) && p < |open|
    ensures p < |OpenAt(r.events, |r.events|)| && open[p].at == OpenAt(r.events, |r.events|)[p]
    ensures FrameOk(r, |r.events|, open[p]) && open[p].at < |r.events| && IsDispatch(r.events[open[p].at])
    ensures BucketsOk(r, buckets)
  {
    hide OpenAt, FrameOk, ActiveOk, BucketsOk, LabelsOk;
    FrameDispatch(r, |r.events|, open[p]);
  }

  lemma EndNested(r: Run, open: seq<Frame>, active: Option<Active>, buckets: map<string, Kids>)
    requires EndOk(r, open, active, buckets) && |open| > 1
    ensures EndOk(r, Folded(open, |open| - 1, Incomplete), active, buckets)
  {
    hide *;
    var p := |open| - 1;
    EndFrame(r, open, active, buckets, p);
    EndFrame(r, open, active, buckets, p - 1);
    NeverCloses(r, p);
    NestsUnder(r, |r.events|, open[p], open[p - 1], Incomplete);
    LastFolded(open);
    FoldedLabels(open, p, Incomplete);
    EndShorter(r, open, active, buckets, WithSkill(open[p - 1], ClosedNode(open[p], Incomplete)));
  }

  lemma LastFolded(open: seq<Frame>)
    requires |open| > 1
    ensures var p := |open| - 1;
            ClosedNode(open[p], Incomplete).SkillNode?
            && WithSkill(open[p - 1], ClosedNode(open[p], Incomplete)).at == open[p - 1].at
            && Folded(open, p, Incomplete) == open[..p][p - 1 := WithSkill(open[p - 1], ClosedNode(open[p], Incomplete))]
  {
    assert Pop(open, |open| - 1) == open[..|open| - 1];
  }

  lemma EndShorter(r: Run, open: seq<Frame>, active: Option<Active>, buckets: map<string, Kids>, f: Frame)
    requires EndOk(r, open, active, buckets) && |open| > 1
    requires f.at == open[|open| - 2].at && FrameOk(r, |r.events|, f)
    requires OpenLabels(open[..|open| - 1][|open| - 2 := f]) == OpenLabels(open)
    ensures EndOk(r, open[..|open| - 1][|open| - 2 := f], active, buckets)
  {
    hide OpenAt, FrameOk, ActiveOk, BucketsOk, OpenLabels, ActiveLabels, BucketLabels, EventLabels;
  }

  /** The oldest frame goes to the bucket of its phase. */
  function ListedUnder(buckets: map<string, Kids>, f: Frame): map<string, Kids> {
    buckets[f.phase := Append(KidsOf(buckets, f.phase), ClosedNode(f, Incomplete), None)]
  }

  lemma EndTop(r: Run, open: seq<Frame>, active: Option<Active>, buckets: map<string, Kids>)
    requires EndOk(r, open, active, buckets) && |open| == 1
    ensures EndOk(r, [], active, ListedUnder(buckets, open[0]))
  {
    hide *;
    EndFrame(r, open, active, buckets, 0);
    NeverCloses(r, 0);
    ClosedNodeOk(r, |r.events|, open[0], None, Incomplete);
    FrameHome(r, |r.events|, open[0]);
    ListedOk(r, buckets, open[0]);
    EndListed(r, open, active, buckets, open[0]);
  }

  lemma FrameHome(r: Run, k: nat, f: Frame)
    requires k <= |r.events| && FrameOk(r, k, f)
    ensures f.phase == FramePhase(r, f.at)
  {
    hide KidsOk, FramePhase, OpenAt, OwnShare, SkillTokens;
  }

  lemma ListedOk(r: Run, buckets: map<string, Kids>, f: Frame)
    requires BucketsOk(r, buckets) && NodeOk(r, None, ClosedNode(f, Incomplete))
    requires Labels(ClosedNode(f, Incomplete)) == FrameLabels(f)
    requires f.at < |r.events| && IsDispatch(r.events[f.at]) && HomeOf(r, f.at) == f.phase
    ensures BucketsOk(r, ListedUnder(buckets, f)) && BucketLabels(ListedUnder(buckets, f)) == BucketLabels(buckets) + FrameLabels(f)
  {
    var kids, node := KidsOf(buckets, f.phase), ClosedNode(f, Incomplete);
    assert BucketOk(r, f.phase, kids);
    AppendedOk(r, f.phase, kids, node);
    AllLabelsSnoc(kids.nodes, node);
    hide *;
    BucketGains(buckets, f.phase, Append(kids, node, None), FrameLabels(f));
    BucketReplaced(r, buckets, f.phase, Append(kids, node, None));
    ListedUnderIs(buckets, f);
  }

  lemma ListedUnderIs(buckets: map<string, Kids>, f: Frame)
    ensures ListedUnder(buckets, f) == buckets[f.phase := Append(KidsOf(buckets, f.phase), ClosedNode(f, Incomplete), None)]
  {
  }

  lemma AppendedOk(r: Run, p: string, kids: Kids, node: Node)
    requires BucketOk(r, p, kids) && NodeOk(r, None, node) && node.SkillNode? && InBucket(r, p, node)
    ensures BucketOk(r, p, Append(kids, node, None)) && Append(kids, node, None).nodes == kids.nodes + [node]
  {
    hide KidsOk, NodeOk, InBucket;
    AppendOk(r, None, kids, node, None);
  }

  lemma EndListed(r: Run, open: seq<Frame>, active: Option<Active>, buckets: map<string, Kids>, f: Frame)
    requires EndOk(r, open, active, buckets) && open == [f]
    requires BucketsOk(r, ListedUnder(buckets, f)) && BucketLabels(ListedUnder(buckets, f)) == BucketLabels(buckets) + FrameLabels(f)
    ensures EndOk(r, [], active, ListedUnder(buckets, f))
  {
    hide OpenAt, FrameOk, ActiveOk, BucketsOk, FrameLabels, OpenLabels, ActiveLabels, BucketLabels, EventLabels, ListedUnder;
    OneOpen(f);
  }

  lemma OneOpen(f: Frame)
    ensures OpenLabels([f]) == FrameLabels(f) && OpenLabels([]) == multiset{}
  {
    assert [f] == [] + [f];
    OpenLabelsSnoc([], f);
    hide FrameLabels;
  }

  lemma EndFlush(r: Run, active: Option<Active>, buckets: map<string, Kids>)
    requires EndOk(r, [], active, buckets)
    ensures BucketsOk(r, Flushed(buckets, active)) && BucketLabels(Flushed(buckets, active)) == EventLabels(r.events, |r.events|)
  {
    hide *;
    EndFacts(r, active, buckets);
    if active.Some? {
      var a := active.value;
      assert active == Some(a);
      ActiveFacts(r, |r.events|, a);
      FlushOk(r, |r.events|, buckets, a);
      ActiveLabelsSome(a);
    } else {
      FlushesNothing(r, 0, buckets);
    }
  }

  lemma EndFacts(r: Run, active: Option<Active>, buckets: map<string, Kids>)
    requires EndOk(r, [], active, buckets)
    ensures ActiveOk(r, |r.events|, active) && BucketsOk(r, buckets)
    ensures BucketLabels(buckets) + ActiveLabels(active) == EventLabels(r.events, |r.events|)
  {
    assert OpenLabels([]) == multiset{};
    hide OpenAt, ActiveOk, BucketsOk, ActiveLabels, BucketLabels, EventLabels;
  }
}
