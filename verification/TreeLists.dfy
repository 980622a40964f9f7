/**
 Every list of children the fold of apps/ingest/structure_aggregator.py holds,
 event by event: the right rows, in order, and fit for the next call to join.
 */
module TreeLists {
  import opened Collections
  import opened Options
  import opened Transcript
  import opened Matching
  import opened Attribution
  import opened Structure
  import opened Tree
  import opened TreeSteps
  import opened TreeResults
  import opened TreeEnd
  import opened Subtrees
  import opened TreeRows

  /** A finished skill lists its rows, and so do all skills below it. */
  ghost predicate Deep(r: Run, node: Node)
    decreases node
  {
    node.SkillNode? ==>
      RowsOk(r, |r.events|, ByFrame(node.at), node.children)
      && forall c | 0 <= c < |node.children| :: Deep(r, node.children[c])
  }

  ghost predicate AllDeep(r: Run, nodes: seq<Node>) {
    forall c | 0 <= c < |nodes| :: Deep(r, nodes[c])
  }

  ghost predicate ListNeat(r: Run, k: nat, bound: nat, o: Owner, kids: Kids)
    requires k <= |r.events|
  {
    KidsNeat(r, k, bound, o, kids) && AllDeep(r, kids.nodes)
  }

  ghost predicate FrameNeat(r: Run, k: nat, f: Frame)
    requires k <= |r.events|
  {
    ListNeat(r, k, k, ByFrame(f.at), f.kids)
  }

  ghost predicate OpenNeat(r: Run, k: nat, open: seq<Frame>)
    requires k <= |r.events|
  {
    forall p | 0 <= p < |open| :: FrameNeat(r, k, open[p])
  }

  /** When the active skill closed. */
  ghost function ClosedTime(r: Run, a: Active): nat {
    if a.frame.at < |r.events| && IsDispatch(r.events[a.frame.at]) then Rank(r.events, a.frame.at) else 0
  }

  ghost predicate ActiveNeat(r: Run, k: nat, active: Option<Active>)
    requires k <= |r.events|
  {
    active.Some? ==> FrameNeat(r, k, active.value.frame) && ClosedTime(r, active.value) < k
  }

  /** No bucket has gained a row since the active skill closed. */
  ghost function Bound(r: Run, k: nat, active: Option<Active>): nat {
    if active.Some? then ClosedTime(r, active.value) else k
  }

  ghost predicate BucketsNeat(r: Run, k: nat, bound: nat, buckets: map<string, Kids>)
    requires k <= |r.events|
  {
    forall p :: ListNeat(r, k, bound, ByPhase(p), KidsOf(buckets, p))
  }

  ghost predicate InlineNeat(r: Run, k: nat, p: string, inline: Inline)
    requires k <= |r.events|
  {
    TurnsAre(r, k, ByPhase(p), inline.turns) && RowsAscend(r, inline.turns)
    && forall c | 0 <= c < |inline.turns| :: inline.turns[c].TurnNode? && inline.turns[c].at < k
  }

  ghost predicate InlinesNeat(r: Run, k: nat, inline: map<string, Inline>)
    requires k <= |r.events|
  {
    forall p :: InlineNeat(r, k, p, InlineOf(inline, p))
  }

  ghost predicate BooksNeat(r: Run, k: nat, b: TreeBooks)
    requires k <= |r.events|
  {
    OpenNeat(r, k, b.open) && ActiveNeat(r, k, b.active) && BucketsNeat(r, k, Bound(r, k, b.active), b.buckets)
    && InlinesNeat(r, k, b.inline)
  }

  lemma BooksParts(r: Run, k: nat, b: TreeBooks)
    requires k <= |r.events| && BooksNeat(r, k, b)
    ensures OpenNeat(r, k, b.open) && ActiveNeat(r, k, b.active) && InlinesNeat(r, k, b.inline)
    ensures BucketsNeat(r, k, Bound(r, k, b.active), b.buckets) && Bound(r, k, b.active) <= k
  {
    hide FrameNeat, BucketsNeat, InlinesNeat, ClosedTime;
  }

  lemma BooksTogether(r: Run, k: nat, b: TreeBooks)
    requires k <= |r.events| && OpenNeat(r, k, b.open) && ActiveNeat(r, k, b.active) && InlinesNeat(r, k, b.inline)
    requires BucketsNeat(r, k, Bound(r, k, b.active), b.buckets)
    ensures BooksNeat(r, k, b)
  {
    hide OpenNeat, ActiveNeat, BucketsNeat, InlinesNeat, Bound;
  }

  lemma BooksStart(r: Run)
    ensures BooksNeat(r, 0, TreeBooks([], None, map[], map[], map[]))
  {
    hide KidsNeat, TurnsAre;
    forall p: string ensures KidsNeat(r, 0, 0, ByPhase(p), NoKids) && TurnsAre(r, 0, ByPhase(p), []) {
      EmptyList(r, ByPhase(p));
      NoTurns(r, ByPhase(p));
    }
  }

  lemma NoTurns(r: Run, o: Owner)
    ensures TurnsAre(r, 0, o, [])
  {
  }

  // ----- Lists an event does not touch ---------------------------------------------------------------

  lemma ListLater(r: Run, k: nat, bound: nat, bound': nat, o: Owner, kids: Kids)
    requires k < |r.events| && ListNeat(r, k, bound, o, kids) && Quiet(r, k, o) && bound <= bound' && bound <= k
    ensures ListNeat(r, k + 1, bound', o, kids)
  {
    hide KidsNeat, Quiet, Deep;
    KidsLater(r, k, bound, bound', o, kids);
  }

  lemma OpenNeatLater(r: Run, k: nat, open: seq<Frame>)
    requires k < |r.events| && OpenNeat(r, k, open) && forall p | 0 <= p < |open| :: Quiet(r, k, ByFrame(open[p].at))
    ensures OpenNeat(r, k + 1, open)
  {
    hide ListNeat, Quiet;
    forall p | 0 <= p < |open| ensures FrameNeat(r, k + 1, open[p]) {
      assert FrameNeat(r, k, open[p]);
      ListLater(r, k, k, k + 1, ByFrame(open[p].at), open[p].kids);
    }
  }

  lemma ActiveNeatLater(r: Run, k: nat, active: Option<Active>)
    requires k < |r.events| && ActiveNeat(r, k, active) && (active.Some? ==> Quiet(r, k, ByFrame(active.value.frame.at)))
    ensures ActiveNeat(r, k + 1, active)
  {
    hide ListNeat, Quiet, ClosedTime;
    if active.Some? {
      var f := active.value.frame;
      ListLater(r, k, k, k + 1, ByFrame(f.at), f.kids);
    }
  }

  lemma BucketsNeatLater(r: Run, k: nat, bound: nat, bound': nat, buckets: map<string, Kids>)
    requires k < |r.events| && BucketsNeat(r, k, bound, buckets) && bound <= bound' && bound <= k
    requires forall p: string :: Quiet(r, k, ByPhase(p))
    ensures BucketsNeat(r, k + 1, bound', buckets)
  {
    hide ListNeat, Quiet;
    forall p ensures ListNeat(r, k + 1, bound', ByPhase(p), KidsOf(buckets, p)) {
      assert ListNeat(r, k, bound, ByPhase(p), KidsOf(buckets, p));
      ListLater(r, k, bound, bound', ByPhase(p), KidsOf(buckets, p));
    }
  }

  lemma OneInlineNeatLater(r: Run, k: nat, p: string, inline: Inline)
    requires k < |r.events| && InlineNeat(r, k, p, inline) && !Says(r, k, ByPhase(p))
    ensures InlineNeat(r, k + 1, p, inline)
  {
    hide TurnsAre, RowsAscend, Says;
    TurnsLater(r, k, ByPhase(p), inline.turns);
  }

  lemma InlinesNeatLater(r: Run, k: nat, inline: map<string, Inline>)
    requires k < |r.events| && InlinesNeat(r, k, inline) && forall p: string :: !Says(r, k, ByPhase(p))
    ensures InlinesNeat(r, k + 1, inline)
  {
    hide InlineNeat, Says;
    forall p ensures InlineNeat(r, k + 1, p, InlineOf(inline, p)) {
      assert InlineNeat(r, k, p, InlineOf(inline, p));
      OneInlineNeatLater(r, k, p, InlineOf(inline, p));
    }
  }

  /** Same lists, same moments. */
  ghost predicate SameLists(b: TreeBooks, b': TreeBooks) {
    |b'.open| == |b.open| && (forall p | 0 <= p < |b.open| :: b'.open[p].at == b.open[p].at && b'.open[p].kids == b.open[p].kids)
    && b'.active.Some? == b.active.Some?
    && (b.active.Some? ==> b'.active.value.frame.at == b.active.value.frame.at && b'.active.value.frame.kids == b.active.value.frame.kids)
    && b'.buckets == b.buckets && b'.inline == b.inline
  }

  lemma SameNeat(r: Run, k: nat, b: TreeBooks, b': TreeBooks)
    requires k <= |r.events| && BooksNeat(r, k, b) && SameLists(b, b')
    ensures BooksNeat(r, k, b')
  {
    hide ListNeat, InlinesNeat, Rank, IsDispatch;
    forall p | 0 <= p < |b'.open| ensures FrameNeat(r, k, b'.open[p]) {
      assert FrameNeat(r, k, b.open[p]);
    }
  }

  lemma BooksLater(r: Run, k: nat, b: TreeBooks)
    requires k < |r.events| && BooksNeat(r, k, b) && forall o :: Quiet(r, k, o) && !Says(r, k, o)
    ensures BooksNeat(r, k + 1, b)
  {
    hide *;
    BooksParts(r, k, b);
    OpenNeatLater(r, k, b.open);
    ActiveNeatLater(r, k, b.active);
    BoundLater(r, k, b.active);
    BucketsNeatLater(r, k, Bound(r, k, b.active), Bound(r, k + 1, b.active), b.buckets);
    InlinesNeatLater(r, k, b.inline);
    BooksTogether(r, k + 1, b);
  }

  lemma BoundLater(r: Run, k: nat, active: Option<Active>)
    ensures Bound(r, k, active) <= Bound(r, k + 1, active)
    ensures active.Some? ==> Bound(r, k + 1, active) == Bound(r, k, active) == ClosedTime(r, active.value)
    ensures active.None? ==> Bound(r, k, active) == k
  {
  }

  // ----- A turn ------------------------------------------------------------------------------------------

  lemma TurnQuiet(r: Run, k: nat, o: Owner)
    requires k < |r.events| && r.events[k].AssistantTurn?
    ensures !Lands(r, k, o) && !ErrorAt(r, k, o)
    ensures Says(r, k, o) <==> OpenAt(r.events, k) == [] && !Parks(r)[k] && r.events[k].text != "" && TurnOwner(r, k) == o
    ensures Quiet(r, k, o) <==> (o.ByFrame? ==> !Says(r, k, o))
  {
    hide OpenAt, TurnOwner, Parks;
  }

  /** A turn that is in flight, parked or silent changes no list. */
  lemma NeatUnsaid(r: Run, k: nat, b: TreeBooks, b': TreeBooks)
    requires k < |r.events| && r.events[k].AssistantTurn? && BooksNeat(r, k, b) && SameLists(b, b')
    requires OpenAt(r.events, k) != [] || Parks(r)[k] || r.events[k].text == ""
    ensures BooksNeat(r, k + 1, b')
  {
    hide *;
    forall o ensures Quiet(r, k, o) && !Says(r, k, o) {
      TurnQuiet(r, k, o);
    }
    BooksLater(r, k, b);
    SameNeat(r, k + 1, b, b');
  }

  lemma SlipNeat(r: Run, k: nat, f: Frame, node: Node)
    requires k < |r.events| && FrameNeat(r, k, f) && node.TurnNode? && node.at == k && Says(r, k, ByFrame(f.at))
    ensures FrameNeat(r, k + 1, f.(kids := Slip(f.kids, node)))
  {
    hide KidsNeat, Says;
    KidsGainTurn(r, k, ByFrame(f.at), f.kids, node);
  }

  lemma ActiveNeatIs(r: Run, k: nat, a: Active)
    requires k <= |r.events|
    ensures ActiveNeat(r, k, Some(a)) <==> FrameNeat(r, k, a.frame) && ClosedTime(r, a) < k
  {
    hide FrameNeat, ClosedTime;
  }

  lemma SameClosedTime(r: Run, a: Active, a': Active)
    requires a'.frame.at == a.frame.at
    ensures ClosedTime(r, a') == ClosedTime(r, a)
  {
    hide Rank, IsDispatch;
  }

  lemma SameFrameNeat(r: Run, k: nat, f: Frame, f': Frame)
    requires k <= |r.events| && FrameNeat(r, k, f) && f'.at == f.at && f'.kids == f.kids
    ensures FrameNeat(r, k, f')
  {
    hide ListNeat;
  }

  lemma ActiveWithIs(a: Active, k: nat, e: CostEvent)
    requires e.AssistantTurn? && e.text != ""
    ensures ActiveWith(a, k, e).frame.at == a.frame.at
    ensures ActiveWith(a, k, e).frame.kids == Slip(a.frame.kids, TurnNode(k, UsageOf(e)))
    ensures TurnNode(k, UsageOf(e)).TurnNode? && TurnNode(k, UsageOf(e)).at == k
  {
  }

  lemma NeatTurnInActive(r: Run, k: nat, b: TreeBooks)
    requires k < |r.events| && r.events[k].AssistantTurn? && !Parks(r)[k] && TreeBooksOk(r, k, b) && BooksNeat(r, k, b)
    requires b.open == [] && b.active.Some?
    ensures BooksNeat(r, k + 1, b.(active := Some(ActiveWith(b.active.value, k, r.events[k]))))
  {
    hide *;
    var a, e := b.active.value, r.events[k];
    assert b.active == Some(a);
    var after := b.(active := Some(ActiveWith(a, k, e)));
    if e.text == "" {
      ActiveSilent(a, k, e, b);
      NeatUnsaid(r, k, b, after);
    } else {
      TurnFacts(r, k);
      TreeBooksParts(r, k, b);
      ActiveFacts(r, k, a);
      ActiveWithIs(a, k, e);
      BooksParts(r, k, b);
      forall o ensures (Says(r, k, o) <==> o == ByFrame(a.frame.at)) && (o.ByPhase? ==> Quiet(r, k, o)) {
        TurnQuiet(r, k, o);
      }
      ActiveNeatIs(r, k, a);
      SlipNeat(r, k, a.frame, TurnNode(k, UsageOf(e)));
      var grown := ActiveWith(a, k, e);
      SameFrameNeat(r, k + 1, a.frame.(kids := Slip(a.frame.kids, TurnNode(k, UsageOf(e)))), grown.frame);
      SameClosedTime(r, a, grown);
      ActiveNeatIs(r, k + 1, grown);
      NoneOpenNeat(r, k + 1, b.open);
      BoundLater(r, k, b.active);
      BoundLater(r, k, Some(grown));
      BucketsNeatLater(r, k, Bound(r, k, b.active), Bound(r, k + 1, Some(grown)), b.buckets);
      InlinesNeatLater(r, k, b.inline);
      BooksTogether(r, k + 1, after);
    }
  }

  lemma NoneOpenNeat(r: Run, k: nat, open: seq<Frame>)
    requires k <= |r.events| && open == []
    ensures OpenNeat(r, k, open)
  {
  }

  lemma ActiveSilent(a: Active, k: nat, e: CostEvent, b: TreeBooks)
    requires e.AssistantTurn? && e.text == "" && b.active == Some(a)
    ensures SameLists(b, b.(active := Some(ActiveWith(a, k, e))))
  {
  }

  lemma InlineNeatGains(r: Run, k: nat, p: string, inline: Inline)
    requires k < |r.events| && r.events[k].AssistantTurn? && r.events[k].text != "" && InlineNeat(r, k, p, inline) && Says(r, k, ByPhase(p))
    ensures InlineNeat(r, k + 1, p, InlineWith(inline, k, r.events[k]))
  {
    hide *;
    var e := r.events[k];
    var node := TurnNode(k, UsageOf(e));
    InlineParts(r, k, p, inline);
    InlineSaid(inline, k, e);
    OwnTurns(r, k, ByPhase(p), inline.turns, node);
    TurnRowsAscend(r, inline.turns, node);
    InlineTogether(r, k + 1, p, InlineWith(inline, k, e));
  }

  lemma InlineParts(r: Run, k: nat, p: string, inline: Inline)
    requires k <= |r.events| && InlineNeat(r, k, p, inline)
    ensures TurnsAre(r, k, ByPhase(p), inline.turns) && RowsAscend(r, inline.turns)
    ensures forall c | 0 <= c < |inline.turns| :: inline.turns[c].TurnNode? && inline.turns[c].at < k
  {
    hide TurnsAre, RowsAscend;
  }

  lemma InlineTogether(r: Run, k: nat, p: string, inline: Inline)
    requires k <= |r.events| && TurnsAre(r, k, ByPhase(p), inline.turns) && RowsAscend(r, inline.turns)
    requires forall c | 0 <= c < |inline.turns| :: inline.turns[c].TurnNode? && inline.turns[c].at < k
    ensures InlineNeat(r, k, p, inline)
  {
    hide TurnsAre, RowsAscend;
  }

  lemma InlineSaid(inline: Inline, k: nat, e: CostEvent)
    requires e.AssistantTurn? && e.text != ""
    ensures InlineWith(inline, k, e).turns == inline.turns + [TurnNode(k, UsageOf(e))]
  {
    hide UsageOf;
  }

  lemma TurnRowsAscend(r: Run, turns: seq<Node>, node: Node)
    requires node.TurnNode? && forall c | 0 <= c < |turns| :: turns[c].TurnNode? && turns[c].at < node.at
    requires RowsAscend(r, turns)
    ensures RowsAscend(r, turns + [node])
  {
    hide Rank, IsDispatch;
    var after := turns + [node];
    forall c, d | 0 <= c < d < |after| ensures Entry(r, after[c]) < Entry(r, after[d]) {
      if d < |turns| {
        assert Entry(r, turns[c]) < Entry(r, turns[d]);
      }
    }
  }

  lemma NeatTurnInline(r: Run, k: nat, b: TreeBooks)
    requires k < |r.events| && r.events[k].AssistantTurn? && !Parks(r)[k] && TreeBooksOk(r, k, b) && BooksNeat(r, k, b)
    requires b.open == [] && b.active.None?
    ensures var p := BucketName(PhaseAt(r, k));
            BooksNeat(r, k + 1, b.(inline := b.inline[p := InlineWith(InlineOf(b.inline, p), k, r.events[k])]))
  {
    hide *;
    var p, e := BucketName(PhaseAt(r, k)), r.events[k];
    var after := b.(inline := b.inline[p := InlineWith(InlineOf(b.inline, p), k, e)]);
    TurnFacts(r, k);
    TreeBooksParts(r, k, b);
    BooksParts(r, k, b);
    forall o ensures (Says(r, k, o) <==> e.text != "" && o == ByPhase(p)) && Quiet(r, k, o) {
      TurnQuiet(r, k, o);
    }
    InlinesNeatNow(r, k, p, b.inline);
    NoneOpenNeat(r, k + 1, b.open);
    ActiveNeatLater(r, k, b.active);
    BoundLater(r, k, b.active);
    BucketsNeatLater(r, k, Bound(r, k, b.active), Bound(r, k + 1, b.active), b.buckets);
    BooksTogether(r, k + 1, after);
  }

  lemma InlinesNeatNow(r: Run, k: nat, p: string, inline: map<string, Inline>)
    requires k < |r.events| && r.events[k].AssistantTurn? && InlinesNeat(r, k, inline)
    requires forall o :: Says(r, k, o) <==> r.events[k].text != "" && o == ByPhase(p)
    ensures InlinesNeat(r, k + 1, inline[p := InlineWith(InlineOf(inline, p), k, r.events[k])])
  {
    hide InlineNeat, Says, InlineWith;
    var after := inline[p := InlineWith(InlineOf(inline, p), k, r.events[k])];
    forall q ensures InlineNeat(r, k + 1, q, InlineOf(after, q)) {
      assert InlineNeat(r, k, q, InlineOf(inline, q));
      if q != p {
        OneInlineNeatLater(r, k, q, InlineOf(inline, q));
      } else if r.events[k].text != "" {
        InlineNeatGains(r, k, p, InlineOf(inline, p));
      } else {
        OneInlineNeatLater(r, k, p, InlineOf(inline, p));
        InlineSilent(r, k, p, InlineOf(inline, p));
      }
    }
  }

  lemma InlineSilent(r: Run, k: nat, p: string, inline: Inline)
    requires k < |r.events| && r.events[k].AssistantTurn? && r.events[k].text == "" && InlineNeat(r, k + 1, p, inline)
    ensures InlineNeat(r, k + 1, p, InlineWith(inline, k, r.events[k]))
  {
    hide TurnsAre, RowsAscend;
  }

  // ----- A list gains a skill ------------------------------------------------------------------------------

  /** A skill that has left the flight and is not active: its list is final. */
  lemma DeepClosed(r: Run, k: nat, bound: nat, f: Frame, status: Status)
    requires f.at < k <= |r.events| && IsDispatch(r.events[f.at]) && ListNeat(r, k, bound, ByFrame(f.at), f.kids)
    requires k == |r.events| || (f.at !in OpenAt(r.events, k) && ActiveAt(r, k) != Some(f.at))
    ensures Deep(r, ClosedNode(f, status))
  {
    hide *;
    RowsOfList(r, k, bound, ByFrame(f.at), f.kids);
    if k < |r.events| {
      RowsSettled(r, f.at, k, |r.events|, f.kids.nodes);
    }
    DeepIs(r, f, status);
  }

  lemma RowsOfList(r: Run, k: nat, bound: nat, o: Owner, kids: Kids)
    requires k <= |r.events| && ListNeat(r, k, bound, o, kids)
    ensures RowsOk(r, k, o, kids.nodes) && Under(r, bound, kids.nodes) && AllDeep(r, kids.nodes)
  {
    hide RowsOk, Under, AllDeep, Tipped, GroupLast, GroupsValid;
  }

  lemma DeepIs(r: Run, f: Frame, status: Status)
    requires RowsOk(r, |r.events|, ByFrame(f.at), f.kids.nodes) && AllDeep(r, f.kids.nodes)
    ensures Deep(r, ClosedNode(f, status))
  {
    hide RowsOk;
  }

  lemma EntryOf(r: Run, f: Frame, status: Status)
    requires f.at < |r.events| && IsDispatch(r.events[f.at])
    ensures ClosedNode(f, status).SkillNode? && Entry(r, ClosedNode(f, status)) == Rank(r.events, f.at)
    ensures ClosedBy(r.events, f.at).Some? ==> Rank(r.events, f.at) == ClosedBy(r.events, f.at).value
    ensures ClosedBy(r.events, f.at).None? ==> Rank(r.events, f.at) >= |r.events|
  {
    hide ClosedBy, IsDispatch;
  }

  lemma ListGainsSkill(r: Run, k: nat, bound: nat, bound': nat, o: Owner, kids: Kids, after: Kids, node: Node)
    requires k <= |r.events| && ListNeat(r, k, bound, o, kids) && Kept(kids, after, node)
    requires node.SkillNode? && Deep(r, node) && bound <= Entry(r, node) < k && Entry(r, node) < bound'
    ensures ListNeat(r, k, bound', o, after)
  {
    hide KidsNeat, Deep, Entry;
    KidsGainSkill(r, k, bound, o, kids, after, node);
    KidsBound(r, k, Entry(r, node) + 1, bound', o, after);
  }

  lemma KidsBound(r: Run, k: nat, bound: nat, bound': nat, o: Owner, kids: Kids)
    requires k <= |r.events| && KidsNeat(r, k, bound, o, kids) && bound <= bound'
    ensures KidsNeat(r, k, bound', o, kids)
  {
    hide RowsOk, Under, Tipped, GroupLast, GroupsValid;
    UnderMore(r, bound, bound', kids.nodes);
  }

  lemma ListBound(r: Run, k: nat, bound: nat, bound': nat, o: Owner, kids: Kids)
    requires k <= |r.events| && ListNeat(r, k, bound, o, kids) && bound <= bound'
    ensures ListNeat(r, k, bound', o, kids)
  {
    hide KidsNeat;
    KidsBound(r, k, bound, bound', o, kids);
  }

  lemma BucketSwapped(r: Run, k: nat, bound: nat, bound': nat, buckets: map<string, Kids>, p: string, kids: Kids)
    requires k <= |r.events| && BucketsNeat(r, k, bound, buckets) && bound <= bound' && ListNeat(r, k, bound', ByPhase(p), kids)
    ensures BucketsNeat(r, k, bound', buckets[p := kids])
  {
    hide ListNeat;
    forall q ensures ListNeat(r, k, bound', ByPhase(q), KidsOf(buckets[p := kids], q)) {
      assert ListNeat(r, k, bound, ByPhase(q), KidsOf(buckets, q));
      ListBound(r, k, bound, bound', ByPhase(q), KidsOf(buckets, q));
    }
  }

  lemma BucketNeat(r: Run, k: nat, bound: nat, buckets: map<string, Kids>, p: string)
    requires k <= |r.events| && BucketsNeat(r, k, bound, buckets)
    ensures ListNeat(r, k, bound, ByPhase(p), KidsOf(buckets, p))
  {
    hide ListNeat;
  }

  /** Event k ends the regime of the active skill, whose row goes to its bucket. */
  lemma NeatFlush(r: Run, k: nat, buckets: map<string, Kids>, active: Option<Active>)
    requires k < |r.events| && ActiveOk(r, k, active) && ActiveNeat(r, k, active) && BucketsNeat(r, k, Bound(r, k, active), buckets)
    requires ActiveAt(r, k + 1).None? && (active.Some? ==> Quiet(r, k, ByFrame(active.value.frame.at)))
    ensures BucketsNeat(r, k, k, Flushed(buckets, active))
  {
    hide *;
    BoundLater(r, k, active);
    if active.Some? {
      var a := active.value;
      assert active == Some(a);
      ActiveFacts(r, k, a);
      ActiveNotOpen(r, k);
      ActiveNeatIs(r, k, a);
      FrameNeatIs(r, k, a.frame);
      ListLater(r, k, k, k + 1, ByFrame(a.frame.at), a.frame.kids);
      FrameEarlier(r, k, a.frame);
      DeepClosed(r, k + 1, k + 1, a.frame, a.status);
      EntryOf(r, a.frame, a.status);
      ClosedTimeIs(r, a);
      FlushedIs(buckets, a);
      var p := BucketName(Some(a.frame.phase));
      BucketNeat(r, k, ClosedTime(r, a), buckets, p);
      ListGainsSkill(r, k, ClosedTime(r, a), k, ByPhase(p), KidsOf(buckets, p), Slip(KidsOf(buckets, p), ClosedNode(a.frame, a.status)), ClosedNode(a.frame, a.status));
      BucketSwapped(r, k, ClosedTime(r, a), k, buckets, p, Slip(KidsOf(buckets, p), ClosedNode(a.frame, a.status)));
    } else {
      FlushesNothing(r, k, buckets);
    }
  }

  lemma FrameNeatIs(r: Run, k: nat, f: Frame)
    requires k <= |r.events|
    ensures FrameNeat(r, k, f) <==> ListNeat(r, k, k, ByFrame(f.at), f.kids)
  {
    hide ListNeat;
  }

  lemma FrameEarlier(r: Run, k: nat, f: Frame)
    requires k <= |r.events| && FrameOk(r, k, f)
    ensures f.at < k && IsDispatch(r.events[f.at])
  {
    hide KidsOk, FramePhase, OpenAt, OwnShare, SkillTokens, IsDispatch;
  }

  lemma ClosedTimeIs(r: Run, a: Active)
    requires a.frame.at < |r.events| && IsDispatch(r.events[a.frame.at])
    ensures ClosedTime(r, a) == Rank(r.events, a.frame.at)
  {
    hide Rank, IsDispatch;
  }

  lemma FlushedIs(buckets: map<string, Kids>, a: Active)
    ensures var p := BucketName(Some(a.frame.phase));
            var kids, node := KidsOf(buckets, p), ClosedNode(a.frame, a.status);
            Flushed(buckets, Some(a)) == buckets[p := Slip(kids, node)] && Kept(kids, Slip(kids, node), node)
  {
  }

  // ----- A dispatch -----------------------------------------------------------------------------------------

  lemma DispatchQuiet(r: Run, k: nat, o: Owner)
    requires k < |r.events| && IsDispatch(r.events[k])
    ensures Quiet(r, k, o) && !Says(r, k, o)
  {
  }

  lemma NeatDispatch(r: Run, k: nat, b: TreeBooks, f: Frame, pending: map<string, Option<Usage>>)
    requires k < |r.events| && IsDispatch(r.events[k]) && TreeBooksOk(r, k, b) && BooksNeat(r, k, b)
    requires f.at == k && f.kids == NoKids
    ensures BooksNeat(r, k + 1, TreeBooks(b.open + [f], None, Flushed(b.buckets, b.active), b.inline, pending))
  {
    hide *;
    var after := TreeBooks(b.open + [f], None, Flushed(b.buckets, b.active), b.inline, pending);
    TreeBooksParts(r, k, b);
    BooksParts(r, k, b);
    DispatchFacts(r, k);
    forall o ensures Quiet(r, k, o) && !Says(r, k, o) {
      DispatchQuiet(r, k, o);
    }
    NeatFlush(r, k, b.buckets, b.active);
    BucketsNeatLater(r, k, k, k + 1, after.buckets);
    OpenNeatLater(r, k, b.open);
    NewList(r, k);
    OpenNeatGains(r, k, b.open, f);
    InlinesNeatLater(r, k, b.inline);
    NoActive(r, k + 1);
    BooksTogether(r, k + 1, after);
  }

  lemma NoActive(r: Run, k: nat)
    requires k <= |r.events|
    ensures ActiveNeat(r, k, None) && Bound(r, k, None) == k
  {
  }

  lemma OpenNeatGains(r: Run, k: nat, open: seq<Frame>, f: Frame)
    requires k < |r.events| && OpenNeat(r, k + 1, open) && f.kids == NoKids && KidsNeat(r, k + 1, k + 1, ByFrame(f.at), NoKids)
    ensures OpenNeat(r, k + 1, open + [f])
  {
    hide KidsNeat, Deep;
    assert FrameNeat(r, k + 1, f);
    hide ListNeat;
  }

  // ----- A tool call ------------------------------------------------------------------------------------------

  lemma ToolLands(r: Run, k: nat, o: Owner)
    requires k < |r.events| && IsTool(r.events[k])
    ensures Lands(r, k, o) <==> o == ToolSpot(r, k)
    ensures !Says(r, k, o) && (Quiet(r, k, o) <==> o != ToolSpot(r, k))
  {
    hide ToolSpot;
  }

  lemma ToolSpotIs(r: Run, k: nat)
    requires k < |r.events| && IsTool(r.events[k])
    ensures ToolParent(r, k).Some? ==> ToolSpot(r, k) == ByFrame(ToolParent(r, k).value)
    ensures ToolParent(r, k).None? ==> ToolSpot(r, k) == ByPhase(GetOr(PhaseAt(r, k + 1), ORCHESTRATION))
    ensures r.events[k].ToolUse?
  {
    hide ToolParent, PhaseAt;
  }

  lemma ListGainsTool(r: Run, k: nat, bound: nat, o: Owner, kids: Kids)
    requires k < |r.events| && ListNeat(r, k, bound, o, kids) && bound <= k && Lands(r, k, o) && r.events[k].ToolUse?
    ensures GroupsValid(kids) && ListNeat(r, k + 1, k + 1, o, AttachTool(kids, NewTool(r.events[k], k), r.events[k].uuid))
  {
    hide KidsNeat, Lands, AttachTool, Deep, GroupsValid;
    KidsGainTool(r, k, bound, o, kids);
    AttachDeep(r, kids, NewTool(r.events[k], k), r.events[k].uuid);
  }

  lemma AttachDeep(r: Run, kids: Kids, tool: Tool, turn: Option<string>)
    requires GroupsValid(kids) && AllDeep(r, kids.nodes)
    ensures AllDeep(r, AttachTool(kids, tool, turn).nodes)
  {
    hide RowsOk;
    var nodes, after := kids.nodes, AttachTool(kids, tool, turn).nodes;
    forall c | 0 <= c < |after| ensures Deep(r, after[c]) {
      if c < |nodes| {
        assert Deep(r, nodes[c]);
      }
    }
  }

  lemma OpenButOne(r: Run, k: nat, open: seq<Frame>, p: nat, f: Frame)
    requires k < |r.events| && OpenNeat(r, k, open) && p < |open| && FrameNeat(r, k + 1, f)
    requires forall q | 0 <= q < |open| && q != p :: Quiet(r, k, ByFrame(open[q].at))
    ensures OpenNeat(r, k + 1, open[p := f])
  {
    hide ListNeat, Quiet;
    forall q | 0 <= q < |open| && q != p ensures FrameNeat(r, k + 1, open[q]) {
      assert FrameNeat(r, k, open[q]);
      ListLater(r, k, k, k + 1, ByFrame(open[q].at), open[q].kids);
    }
    hide FrameNeat;
  }

  /** Frames in flight are different skills. */
  lemma OthersDiffer(r: Run, k: nat, open: seq<Frame>, p: nat)
    requires k <= |r.events| && FramesOpen(r, k, open) && p < |open|
    ensures |open| == |OpenAt(r.events, k)| && open[p].at == OpenAt(r.events, k)[p]
    ensures forall q | 0 <= q < |open| && q != p :: open[q].at != open[p].at
  {
    assert Ascending(OpenAt(r.events, k));
    hide OpenAt, FrameOk;
  }

  lemma NoneActive(r: Run, k: nat, b: TreeBooks)
    requires k <= |r.events| && TreeBooksOk(r, k, b) && b.open != []
    ensures b.active == None && OpenAt(r.events, k) != []
  {
    TreeBooksParts(r, k, b);
    hide OpenAt, TreeBooksOk;
  }

  lemma NeatToolInFrame(r: Run, k: nat, b: TreeBooks)
    requires k < |r.events| && IsTool(r.events[k]) && TreeBooksOk(r, k, b) && BooksNeat(r, k, b) && b.open != []
    ensures var p := |b.open| - 1;
            GroupsValid(b.open[p].kids) && r.events[k].ToolUse?
            && BooksNeat(r, k + 1, b.(open := b.open[p := WithTool(b.open[p], k, r.events[k])]))
  {
    hide *;
    var p, e := |b.open| - 1, r.events[k];
    TreeBooksParts(r, k, b);
    BooksParts(r, k, b);
    NoneActive(r, k, b);
    OthersDiffer(r, k, b.open, p);
    ToolFacts(r, k);
    NewestIs(OpenAt(r.events, k));
    ToolSpotIs(r, k);
    OpenNeatAt(r, k, b.open, p);
    FrameNeatIs(r, k, b.open[p]);
    forall o ensures Lands(r, k, o) <==> o == ByFrame(b.open[p].at)
      ensures !Says(r, k, o) && (Quiet(r, k, o) <==> o != ByFrame(b.open[p].at))
    {
      ToolLands(r, k, o);
    }
    ListGainsTool(r, k, k, ByFrame(b.open[p].at), b.open[p].kids);
    WithToolIs(b.open[p], k, e);
    FrameNeatIs(r, k + 1, WithTool(b.open[p], k, e));
    OpenButOne(r, k, b.open, p, WithTool(b.open[p], k, e));
    BucketsNeatLater(r, k, Bound(r, k, b.active), k + 1, b.buckets);
    InlinesNeatLater(r, k, b.inline);
    NoActive(r, k + 1);
    BooksTogether(r, k + 1, b.(open := b.open[p := WithTool(b.open[p], k, e)]));
  }

  lemma NewestIs(open: seq<nat>)
    requires open != []
    ensures Newest(open) == Some(open[|open| - 1])
  {
  }

  lemma OpenNeatAt(r: Run, k: nat, open: seq<Frame>, p: nat)
    requires k <= |r.events| && OpenNeat(r, k, open) && p < |open|
    ensures FrameNeat(r, k, open[p])
  {
    hide FrameNeat;
  }

  lemma NeatToolInActive(r: Run, k: nat, b: TreeBooks)
    requires k < |r.events| && IsTool(r.events[k]) && TreeBooksOk(r, k, b) && BooksNeat(r, k, b) && b.open == []
    requires ActiveAt(r, k + 1).Some?
    ensures b.active.Some? && GroupsValid(b.active.value.frame.kids) && r.events[k].ToolUse?
    ensures BooksNeat(r, k + 1, b.(active := Some(b.active.value.(frame := WithTool(b.active.value.frame, k, r.events[k])))))
  {
    hide *;
    TreeBooksParts(r, k, b);
    BooksParts(r, k, b);
    ToolFacts(r, k);
    var a, e := b.active.value, r.events[k];
    assert b.active == Some(a);
    ActiveFacts(r, k, a);
    ToolSpotIs(r, k);
    ActiveNeatIs(r, k, a);
    FrameNeatIs(r, k, a.frame);
    forall o ensures Lands(r, k, o) <==> o == ByFrame(a.frame.at)
      ensures !Says(r, k, o) && (Quiet(r, k, o) <==> o != ByFrame(a.frame.at))
    {
      ToolLands(r, k, o);
    }
    ListGainsTool(r, k, k, ByFrame(a.frame.at), a.frame.kids);
    var f := WithTool(a.frame, k, e);
    WithToolIs(a.frame, k, e);
    FrameNeatIs(r, k + 1, f);
    ActiveNow(r, k, b, a.(frame := f));
  }

  /** The active skill's list has changed, and no other. */
  lemma ActiveNow(r: Run, k: nat, b: TreeBooks, a: Active)
    requires k < |r.events| && BooksNeat(r, k, b) && b.open == [] && b.active.Some? && a.frame.at == b.active.value.frame.at
    requires FrameNeat(r, k + 1, a.frame)
    requires forall o :: !Says(r, k, o) && (o != ByFrame(a.frame.at) ==> Quiet(r, k, o))
    ensures BooksNeat(r, k + 1, b.(active := Some(a)))
  {
    hide *;
    assert b.active == Some(b.active.value);
    BooksParts(r, k, b);
    ActiveNeatIs(r, k, b.active.value);
    SameClosedTime(r, b.active.value, a);
    ActiveNeatIs(r, k + 1, a);
    BoundLater(r, k, b.active);
    BoundLater(r, k, Some(a));
    BucketsNeatLater(r, k, Bound(r, k, b.active), Bound(r, k + 1, Some(a)), b.buckets);
    InlinesNeatLater(r, k, b.inline);
    NoneOpenNeat(r, k + 1, b.open);
    BooksTogether(r, k + 1, b.(active := Some(a)));
  }

  lemma BucketsButOne(r: Run, k: nat, bound: nat, bound': nat, buckets: map<string, Kids>, p: string, kids: Kids)
    requires k < |r.events| && BucketsNeat(r, k, bound, buckets) && bound <= bound' && bound <= k
    requires forall q: string | q != p :: Quiet(r, k, ByPhase(q))
    requires ListNeat(r, k + 1, bound', ByPhase(p), kids)
    ensures BucketsNeat(r, k + 1, bound', buckets[p := kids])
  {
    hide ListNeat, Quiet;
    forall q ensures ListNeat(r, k + 1, bound', ByPhase(q), KidsOf(buckets[p := kids], q)) {
      assert ListNeat(r, k, bound, ByPhase(q), KidsOf(buckets, q));
      if q != p {
        ListLater(r, k, bound, bound', ByPhase(q), KidsOf(buckets, q));
      }
    }
  }

  lemma NeatToolInBucket(r: Run, k: nat, b: TreeBooks)
    requires k < |r.events| && IsTool(r.events[k]) && TreeBooksOk(r, k, b) && BooksNeat(r, k, b) && b.open == []
    requires ActiveAt(r, k + 1).None?
    ensures var flushed, p := Flushed(b.buckets, b.active), GetOr(PhaseAt(r, k + 1), ORCHESTRATION);
            GroupsValid(KidsOf(flushed, p)) && r.events[k].ToolUse?
            && BooksNeat(r, k + 1, b.(active := None,
                                   buckets := flushed[p := AttachTool(KidsOf(flushed, p), NewTool(r.events[k], k), r.events[k].uuid)]))
  {
    hide *;
    var flushed, p := Flushed(b.buckets, b.active), GetOr(PhaseAt(r, k + 1), ORCHESTRATION);
    TreeBooksParts(r, k, b);
    BooksParts(r, k, b);
    ToolFacts(r, k);
    ToolSpotIs(r, k);
    forall o ensures Lands(r, k, o) <==> o == ByPhase(p)
      ensures !Says(r, k, o) && (Quiet(r, k, o) <==> o != ByPhase(p))
    {
      ToolLands(r, k, o);
    }
    NeatFlush(r, k, b.buckets, b.active);
    BucketNeat(r, k, k, flushed, p);
    ListGainsTool(r, k, k, ByPhase(p), KidsOf(flushed, p));
    var kids := AttachTool(KidsOf(flushed, p), NewTool(r.events[k], k), r.events[k].uuid);
    BucketsButOne(r, k, k, k + 1, flushed, p, kids);
    InlinesNeatLater(r, k, b.inline);
    NoneOpenNeat(r, k + 1, b.open);
    NoActive(r, k + 1);
    BooksTogether(r, k + 1, b.(active := None, buckets := flushed[p := kids]));
  }

  // ----- A result that closes a skill ---------------------------------------------------------------------------

  lemma CloseQuiet(r: Run, k: nat, o: Owner)
    requires k < |r.events| && r.events[k].ToolResult? && LastWith(r.events, OpenAt(r.events, k), r.events[k].matched) >= 0
    ensures Quiet(r, k, o) && !Says(r, k, o)
  {
    hide OpenAt, LastWith, ResultSpot;
  }

  lemma FrameHeld(r: Run, k: nat, f: Frame)
    requires k < |r.events| && FrameNeat(r, k, f) && Quiet(r, k, ByFrame(f.at))
    ensures ListNeat(r, k + 1, k, ByFrame(f.at), f.kids)
  {
    hide ListNeat, Quiet;
    ListLater(r, k, k, k, ByFrame(f.at), f.kids);
  }

  lemma WithSkillIs(g: Frame, node: Node)
    requires node.SkillNode?
    ensures WithSkill(g, node).at == g.at && WithSkill(g, node).kids == Append(g.kids, node, None)
    ensures Kept(g.kids, Append(g.kids, node, None), node)
  {
  }

  lemma NeatClosesNested(r: Run, k: nat, b: TreeBooks, p: nat)
    requires k < |r.events| && r.events[k].ToolResult? && TreeBooksOk(r, k, b) && BooksNeat(r, k, b)
    requires p < |b.open| && p == LastWith(r.events, OpenAt(r.events, k), r.events[k].matched) && |b.open| > 1
    ensures BooksNeat(r, k + 1, b.(open := Folded(b.open, p, Verdict(r.events[k]))))
  {
    hide *;
    OpenLength(r, k, b);
    BooksParts(r, k, b);
    NoneActive(r, k, b);
    forall o ensures Quiet(r, k, o) && !Says(r, k, o) {
      CloseQuiet(r, k, o);
    }
    OpenNeatLater(r, k, b.open);
    FoldedNeat(r, k, b.open, p);
    BucketsNeatLater(r, k, Bound(r, k, b.active), k + 1, b.buckets);
    InlinesNeatLater(r, k, b.inline);
    NoActive(r, k + 1);
    BooksTogether(r, k + 1, b.(open := Folded(b.open, p, Verdict(r.events[k]))));
  }

  lemma FoldedNeat(r: Run, k: nat, open: seq<Frame>, p: nat)
    requires k < |r.events| && r.events[k].ToolResult? && OpenNeat(r, k, open) && OpenNeat(r, k + 1, open) && FramesOpen(r, k, open)
    requires p < |open| && |open| > 1 && |open| == |OpenAt(r.events, k)|
    requires p == LastWith(r.events, OpenAt(r.events, k), r.events[k].matched)
    requires forall p | 0 <= p < |open| :: open[p].at == OpenAt(r.events, k)[p]
    requires forall o :: Quiet(r, k, o)
    ensures OpenNeat(r, k + 1, Folded(open, p, Verdict(r.events[k])))
  {
    hide *;
    var rest, n, f, status := Pop(open, p), |open| - 2, open[p], Verdict(r.events[k]);
    var g := rest[n];
    assert g == open[if n < p then n else n + 1];
    OpenNeatAt(r, k, open, if n < p then n else n + 1);
    OpenNeatAt(r, k + 1, open, p);
    CloseFacts(r, k, p);
    OpenFrame(r, k, open, p);
    FrameEarlier(r, k, f);
    FoldedIs(open, p, status);
    FrameHeld(r, k, g);
    FrameNeatIs(r, k + 1, f);
    DeepClosed(r, k + 1, k + 1, f, status);
    EntryOf(r, f, status);
    var node := ClosedNode(f, status);
    WithSkillIs(g, node);
    ListGainsSkill(r, k + 1, k, k + 1, ByFrame(g.at), g.kids, Append(g.kids, node, None), node);
    FrameNeatIs(r, k + 1, WithSkill(g, node));
    OpenSwapped(r, k + 1, open, p, n, WithSkill(g, node));
  }

  lemma OpenSwapped(r: Run, k: nat, open: seq<Frame>, p: nat, n: nat, f: Frame)
    requires k <= |r.events| && OpenNeat(r, k, open) && p < |open| && n < |open| - 1 && FrameNeat(r, k, f)
    ensures OpenNeat(r, k, Pop(open, p)[n := f])
  {
    hide FrameNeat;
  }

  lemma NeatClosesTop(r: Run, k: nat, b: TreeBooks)
    requires k < |r.events| && r.events[k].ToolResult? && TreeBooksOk(r, k, b) && BooksNeat(r, k, b)
    requires |b.open| == 1 && LastWith(r.events, OpenAt(r.events, k), r.events[k].matched) == 0
    ensures BooksNeat(r, k + 1, b.(open := [], active := Some(Staged(b.open[0], Verdict(r.events[k])))))
  {
    hide *;
    var f := b.open[0];
    var a := Staged(f, Verdict(r.events[k]));
    OpenLength(r, k, b);
    BooksParts(r, k, b);
    NoneActive(r, k, b);
    forall o ensures Quiet(r, k, o) && !Says(r, k, o) {
      CloseQuiet(r, k, o);
    }
    OpenFrame(r, k, b.open, 0);
    OpenNeatAt(r, k, b.open, 0);
    FrameEarlier(r, k, f);
    CloseFacts(r, k, 0);
    EntryOf(r, f, Verdict(r.events[k]));
    FrameHeld(r, k, f);
    StagedNeat(r, k, f, Verdict(r.events[k]));
    ClosedTimeIs(r, a);
    ActiveNeatIs(r, k + 1, a);
    BoundLater(r, k, b.active);
    BoundLater(r, k, Some(a));
    BucketsNeatLater(r, k, k, Bound(r, k + 1, Some(a)), b.buckets);
    InlinesNeatLater(r, k, b.inline);
    NoneOpenNeat(r, k + 1, []);
    BooksTogether(r, k + 1, b.(open := [], active := Some(a)));
  }

  lemma StagedNeat(r: Run, k: nat, f: Frame, status: Status)
    requires k < |r.events| && ListNeat(r, k + 1, k, ByFrame(f.at), f.kids)
    ensures FrameNeat(r, k + 1, Staged(f, status).frame) && Staged(f, status).frame.at == f.at
  {
    var bare := Kids(f.kids.nodes, None, None);
    Untipped(r, k + 1, k, bare);
    UnderMore(r, k, k + 1, f.kids.nodes);
    hide RowsOk, Under, Tipped, Deep;
  }

  // ----- A result of a tool call ----------------------------------------------------------------------------------

  lemma ResultLands(r: Run, k: nat, o: Owner)
    requires k < |r.events| && r.events[k].ToolResult? && o != ResultSpot(r, k)
    ensures Quiet(r, k, o)
  {
    hide ResultSpot;
  }

  lemma ResultSays(r: Run, k: nat, o: Owner)
    requires k < |r.events| && r.events[k].ToolResult?
    ensures !Says(r, k, o)
  {
  }

  lemma ResultSpotIs(r: Run, k: nat)
    requires k < |r.events|
    ensures var open := OpenAt(r.events, k);
            (open != [] ==> ResultSpot(r, k) == ByFrame(open[|open| - 1]))
            && (open == [] && ActiveAt(r, k).Some? ==> ResultSpot(r, k) == ByFrame(ActiveAt(r, k).value))
            && (open == [] && ActiveAt(r, k).None? ==> ResultSpot(r, k) == ByPhase(BucketName(PhaseAt(r, k))))
  {
    hide OpenAt, ActiveAt, PhaseAt;
  }

  lemma ListGainsResult(r: Run, k: nat, bound: nat, o: Owner, kids: Kids, found: Option<Place>)
    requires k < |r.events| && ListNeat(r, k, bound, o, kids) && bound <= k && r.events[k].ToolResult?
    requires ResultSpot(r, k) == o && LastWith(r.events, OpenAt(r.events, k), r.events[k].matched) < 0
    requires Latest(kids.nodes, found, r.events[k].matched)
    ensures ListNeat(r, k + 1, bound, o, MarkKids(kids, found, r.events[k]))
  {
    hide KidsNeat, ResultSpot, LastWith, OpenAt, Latest, MarkKids, Deep;
    KidsGainResult(r, k, bound, o, kids, found);
    MarkDeep(r, kids, found, r.events[k]);
  }

  lemma MarkDeep(r: Run, kids: Kids, found: Option<Place>, e: CostEvent)
    requires AllDeep(r, kids.nodes) && e.ToolResult?
    ensures AllDeep(r, MarkKids(kids, found, e).nodes)
  {
    hide RowsOk;
    var nodes, after := kids.nodes, MarkKids(kids, found, e).nodes;
    forall c | 0 <= c < |after| ensures Deep(r, after[c]) {
      assert Deep(r, nodes[c]);
    }
  }

  lemma MarkFrameIs(f: Frame, found: Option<Place>, e: CostEvent)
    requires e.ToolResult?
    ensures MarkFrame(f, found, e).at == f.at && MarkFrame(f, found, e).kids == MarkKids(f.kids, found, e)
  {
    hide MarkKids;
  }

  lemma MarkedFrameNeat(r: Run, k: nat, f: Frame, found: Option<Place>)
    requires k < |r.events| && FrameNeat(r, k, f) && r.events[k].ToolResult?
    requires ResultSpot(r, k) == ByFrame(f.at) && LastWith(r.events, OpenAt(r.events, k), r.events[k].matched) < 0
    requires Latest(f.kids.nodes, found, r.events[k].matched)
    ensures FrameNeat(r, k + 1, MarkFrame(f, found, r.events[k])) && MarkFrame(f, found, r.events[k]).at == f.at
  {
    hide *;
    FrameNeatIs(r, k, f);
    ListGainsResult(r, k, k, ByFrame(f.at), f.kids, found);
    MarkFrameIs(f, found, r.events[k]);
    ListBound(r, k + 1, k, k + 1, ByFrame(f.at), MarkKids(f.kids, found, r.events[k]));
    FrameNeatIs(r, k + 1, MarkFrame(f, found, r.events[k]));
  }

  lemma NeatMarksInFrame(r: Run, k: nat, b: TreeBooks, found: Option<Place>)
    requires k < |r.events| && r.events[k].ToolResult? && TreeBooksOk(r, k, b) && BooksNeat(r, k, b) && b.open != []
    requires LastWith(r.events, OpenAt(r.events, k), r.events[k].matched) < 0
    requires Latest(b.open[|b.open| - 1].kids.nodes, found, r.events[k].matched)
    ensures var p := |b.open| - 1;
            BooksNeat(r, k + 1, b.(open := b.open[p := MarkFrame(b.open[p], found, r.events[k])]))
  {
    hide *;
    var p := |b.open| - 1;
    TreeBooksParts(r, k, b);
    BooksParts(r, k, b);
    NoneActive(r, k, b);
    OthersDiffer(r, k, b.open, p);
    ResultSpotIs(r, k);
    forall o ensures !Says(r, k, o) && (o != ByFrame(b.open[p].at) ==> Quiet(r, k, o)) {
      ResultSays(r, k, o);
      if o != ByFrame(b.open[p].at) {
        ResultLands(r, k, o);
      }
    }
    OpenNeatAt(r, k, b.open, p);
    MarkedFrameNeat(r, k, b.open[p], found);
    OpenButOne(r, k, b.open, p, MarkFrame(b.open[p], found, r.events[k]));
    BucketsNeatLater(r, k, Bound(r, k, b.active), k + 1, b.buckets);
    InlinesNeatLater(r, k, b.inline);
    NoActive(r, k + 1);
    BooksTogether(r, k + 1, b.(open := b.open[p := MarkFrame(b.open[p], found, r.events[k])]));
  }

  lemma NeatMarksInActive(r: Run, k: nat, b: TreeBooks, found: Option<Place>)
    requires k < |r.events| && r.events[k].ToolResult? && TreeBooksOk(r, k, b) && BooksNeat(r, k, b) && b.open == [] && b.active.Some?
    requires LastWith(r.events, OpenAt(r.events, k), r.events[k].matched) < 0
    requires Latest(b.active.value.frame.kids.nodes, found, r.events[k].matched)
    ensures var a := b.active.value;
            BooksNeat(r, k + 1, b.(active := Some(a.(frame := MarkFrame(a.frame, found, r.events[k])))))
  {
    hide *;
    var a := b.active.value;
    assert b.active == Some(a);
    TreeBooksParts(r, k, b);
    BooksParts(r, k, b);
    ActiveFacts(r, k, a);
    ResultSpotIs(r, k);
    forall o ensures !Says(r, k, o) && (o != ByFrame(a.frame.at) ==> Quiet(r, k, o)) {
      ResultSays(r, k, o);
      if o != ByFrame(a.frame.at) {
        ResultLands(r, k, o);
      }
    }
    ActiveNeatIs(r, k, a);
    MarkedFrameNeat(r, k, a.frame, found);
    ActiveNow(r, k, b, a.(frame := MarkFrame(a.frame, found, r.events[k])));
  }

  lemma NeatMarksInBucket(r: Run, k: nat, b: TreeBooks, found: Option<Place>, p: string)
    requires k < |r.events| && r.events[k].ToolResult? && TreeBooksOk(r, k, b) && BooksNeat(r, k, b) && b.open == [] && b.active.None?
    requires LastWith(r.events, OpenAt(r.events, k), r.events[k].matched) < 0 && p == BucketName(PhaseAt(r, k))
    requires Latest(KidsOf(b.buckets, p).nodes, found, r.events[k].matched)
    ensures BooksNeat(r, k + 1, b.(buckets := b.buckets[p := MarkKids(KidsOf(b.buckets, p), found, r.events[k])]))
  {
    hide *;
    var kids := MarkKids(KidsOf(b.buckets, p), found, r.events[k]);
    TreeBooksParts(r, k, b);
    BooksParts(r, k, b);
    ResultSpotIs(r, k);
    forall o ensures !Says(r, k, o) && (o != ByPhase(p) ==> Quiet(r, k, o)) {
      ResultSays(r, k, o);
      if o != ByPhase(p) {
        ResultLands(r, k, o);
      }
    }
    BoundLater(r, k, b.active);
    BucketNeat(r, k, k, b.buckets, p);
    ListGainsResult(r, k, k, ByPhase(p), KidsOf(b.buckets, p), found);
    ListBound(r, k + 1, k, k + 1, ByPhase(p), kids);
    BucketsButOne(r, k, k, k + 1, b.buckets, p, kids);
    InlinesNeatLater(r, k, b.inline);
    NoneOpenNeat(r, k + 1, b.open);
    NoActive(r, k + 1);
    assert b.active == None;
    BooksTogether(r, k + 1, b.(buckets := b.buckets[p := kids]));
  }

  // ----- The end of the stream ---------------------------------------------------------------------------------------

  /** The lists are final, whatever is still to be listed where. */
  ghost predicate ListDone(r: Run, bound: nat, o: Owner, kids: Kids) {
    RowsOk(r, |r.events|, o, kids.nodes) && Under(r, bound, kids.nodes) && AllDeep(r, kids.nodes)
  }

  ghost predicate BucketsDone(r: Run, bound: nat, buckets: map<string, Kids>) {
    forall p :: ListDone(r, bound, ByPhase(p), KidsOf(buckets, p))
  }

  ghost predicate FrameDone(r: Run, bound: nat, f: Frame) {
    ListDone(r, bound, ByFrame(f.at), f.kids)
  }

  /** Only the newest frame left may hold a skill that never closed. */
  ghost predicate EndNeat(r: Run, open: seq<Frame>, active: Option<Active>, buckets: map<string, Kids>) {
    var n := |r.events|;
    (forall p | 0 <= p < |open| - 1 :: FrameDone(r, n, open[p]))
    && (open != [] ==> FrameDone(r, 2 * n + 1, open[|open| - 1]) && active.None?)
    && ActiveNeat(r, n, active)
    && BucketsDone(r, if active.Some? then Bound(r, n, active) else if open != [] then n else 2 * n + 1, buckets)
  }

  lemma ListDoneIs(r: Run, bound: nat, bound': nat, o: Owner, kids: Kids)
    requires ListNeat(r, |r.events|, bound, o, kids) && bound <= bound'
    ensures ListDone(r, bound', o, kids)
  {
    hide RowsOk, Under, AllDeep, Tipped, GroupLast, GroupsValid;
    UnderMore(r, bound, bound', kids.nodes);
  }

  lemma BucketsDoneIs(r: Run, bound: nat, bound': nat, buckets: map<string, Kids>)
    requires BucketsNeat(r, |r.events|, bound, buckets) && bound <= bound'
    ensures BucketsDone(r, bound', buckets)
  {
    hide ListNeat, ListDone;
    forall p ensures ListDone(r, bound', ByPhase(p), KidsOf(buckets, p)) {
      assert ListNeat(r, |r.events|, bound, ByPhase(p), KidsOf(buckets, p));
      ListDoneIs(r, bound, bound', ByPhase(p), KidsOf(buckets, p));
    }
  }

  lemma FrameDoneIs(r: Run, bound: nat, f: Frame)
    requires FrameNeat(r, |r.events|, f) && |r.events| <= bound
    ensures FrameDone(r, bound, f)
  {
    hide ListNeat, ListDone;
    ListDoneIs(r, |r.events|, bound, ByFrame(f.at), f.kids);
  }

  lemma NeatEndStarts(r: Run, b: TreeBooks)
    requires TreeBooksOk(r, |r.events|, b) && BooksNeat(r, |r.events|, b)
    ensures EndNeat(r, b.open, b.active, b.buckets)
  {
    hide *;
    var n := |r.events|;
    BooksParts(r, n, b);
    if b.open != [] {
      NoneActive(r, n, b);
    }
    forall p | 0 <= p < |b.open| ensures FrameDone(r, n, b.open[p]) && FrameDone(r, 2 * n + 1, b.open[p]) {
      OpenNeatAt(r, n, b.open, p);
      FrameDoneIs(r, n, b.open[p]);
      FrameDoneIs(r, 2 * n + 1, b.open[p]);
    }
    BoundLater(r, n, b.active);
    BucketsDoneIs(r, Bound(r, n, b.active), if b.active.Some? then Bound(r, n, b.active) else if b.open != [] then n else 2 * n + 1, b.buckets);
    EndNeatIs(r, b.open, b.active, b.buckets);
  }

  lemma EndNeatIs(r: Run, open: seq<Frame>, active: Option<Active>, buckets: map<string, Kids>)
    ensures EndNeat(r, open, active, buckets) <==>
            (forall p | 0 <= p < |open| - 1 :: FrameDone(r, |r.events|, open[p]))
            && (open != [] ==> FrameDone(r, 2 * |r.events| + 1, open[|open| - 1]) && active.None?)
            && ActiveNeat(r, |r.events|, active)
            && BucketsDone(r, if active.Some? then Bound(r, |r.events|, active) else if open != [] then |r.events| else 2 * |r.events| + 1, buckets)
  {
    hide FrameDone, ActiveNeat, BucketsDone, Bound;
  }

  lemma DoneDeep(r: Run, bound: nat, f: Frame, status: Status)
    requires FrameDone(r, bound, f)
    ensures Deep(r, ClosedNode(f, status))
  {
    hide RowsOk, Under, AllDeep;
    DeepIs(r, f, status);
  }

  lemma DoneGainsSkill(r: Run, bound: nat, bound': nat, o: Owner, kids: Kids, after: Kids, node: Node)
    requires ListDone(r, bound, o, kids) && after.nodes == kids.nodes + [node]
    requires node.SkillNode? && Deep(r, node) && bound <= Entry(r, node) < bound'
    ensures ListDone(r, bound', o, after)
  {
    hide RowsOk, Under, Deep, Entry;
    SkillRows(r, |r.events|, bound, o, kids.nodes, node);
    UnderMore(r, Entry(r, node) + 1, bound', after.nodes);
  }

  lemma DoneMore(r: Run, bound: nat, bound': nat, o: Owner, kids: Kids)
    requires ListDone(r, bound, o, kids) && bound <= bound'
    ensures ListDone(r, bound', o, kids)
  {
    hide RowsOk, Under, AllDeep;
    UnderMore(r, bound, bound', kids.nodes);
  }

  lemma NeatEndNested(r: Run, open: seq<Frame>, active: Option<Active>, buckets: map<string, Kids>)
    requires EndOk(r, open, active, buckets) && EndNeat(r, open, active, buckets) && |open| > 1
    ensures EndNeat(r, Folded(open, |open| - 1, Incomplete), active, buckets)
  {
    hide *;
    var p := |open| - 1;
    var f, g, node := open[p], open[p - 1], ClosedNode(open[p], Incomplete);
    EndNeatIs(r, open, active, buckets);
    EndFrame(r, open, active, buckets, p);
    NeverCloses(r, p);
    EntryOf(r, f, Incomplete);
    RankBound(r.events, f.at);
    DoneDeep(r, 2 * |r.events| + 1, f, Incomplete);
    WithSkillIs(g, node);
    FrameIsList(r, |r.events|, g);
    DoneGainsSkill(r, |r.events|, 2 * |r.events| + 1, ByFrame(g.at), g.kids, Append(g.kids, node, None), node);
    FrameIsList(r, 2 * |r.events| + 1, WithSkill(g, node));
    LastFolded(open);
    EndNeatIs(r, Folded(open, p, Incomplete), active, buckets);
  }

  lemma RankBound(events: seq<CostEvent>, i: nat)
    requires i < |events| && IsDispatch(events[i])
    ensures Rank(events, i) < 2 * |events| + 1
  {
    hide Scan;
  }

  lemma FrameIsList(r: Run, bound: nat, f: Frame)
    ensures FrameDone(r, bound, f) <==> ListDone(r, bound, ByFrame(f.at), f.kids)
  {
    hide ListDone;
  }

  lemma DoneSwapped(r: Run, bound: nat, bound': nat, buckets: map<string, Kids>, p: string, kids: Kids)
    requires BucketsDone(r, bound, buckets) && bound <= bound' && ListDone(r, bound', ByPhase(p), kids)
    ensures BucketsDone(r, bound', buckets[p := kids])
  {
    hide ListDone;
    forall q ensures ListDone(r, bound', ByPhase(q), KidsOf(buckets[p := kids], q)) {
      assert ListDone(r, bound, ByPhase(q), KidsOf(buckets, q));
      DoneMore(r, bound, bound', ByPhase(q), KidsOf(buckets, q));
    }
  }

  lemma BucketDone(r: Run, bound: nat, buckets: map<string, Kids>, p: string)
    requires BucketsDone(r, bound, buckets)
    ensures ListDone(r, bound, ByPhase(p), KidsOf(buckets, p))
  {
    hide ListDone;
  }

  lemma NeatEndTop(r: Run, open: seq<Frame>, active: Option<Active>, buckets: map<string, Kids>)
    requires EndOk(r, open, active, buckets) && EndNeat(r, open, active, buckets) && |open| == 1
    ensures EndNeat(r, [], active, ListedUnder(buckets, open[0]))
  {
    hide *;
    var f, node, n := open[0], ClosedNode(open[0], Incomplete), |r.events|;
    var kids := KidsOf(buckets, f.phase);
    EndNeatIs(r, open, active, buckets);
    EndFrame(r, open, active, buckets, 0);
    NeverCloses(r, 0);
    EntryOf(r, f, Incomplete);
    RankBound(r.events, f.at);
    DoneDeep(r, 2 * n + 1, f, Incomplete);
    BucketDone(r, n, buckets, f.phase);
    AppendIs(kids, node);
    DoneGainsSkill(r, n, 2 * n + 1, ByPhase(f.phase), kids, Append(kids, node, None), node);
    DoneSwapped(r, n, 2 * n + 1, buckets, f.phase, Append(kids, node, None));
    ListedUnderIs(buckets, f);
    EndNeatIs(r, [], active, ListedUnder(buckets, f));
  }

  lemma AppendIs(kids: Kids, node: Node)
    ensures Append(kids, node, None).nodes == kids.nodes + [node]
  {
  }

  /** Every bucket ends up with the right rows. */
  lemma NeatEndFlush(r: Run, active: Option<Active>, buckets: map<string, Kids>)
    requires EndOk(r, [], active, buckets) && EndNeat(r, [], active, buckets)
    ensures BucketsDone(r, 2 * |r.events| + 1, Flushed(buckets, active))
  {
    hide *;
    var n := |r.events|;
    EndNeatIs(r, [], active, buckets);
    EndFacts(r, active, buckets);
    BoundLater(r, n, active);
    if active.Some? {
      var a := active.value;
      var p, node := BucketName(Some(a.frame.phase)), ClosedNode(a.frame, a.status);
      assert active == Some(a);
      ActiveFacts(r, n, a);
      ActiveNeatIs(r, n, a);
      FrameDoneIs(r, n, a.frame);
      DoneDeep(r, n, a.frame, a.status);
      EntryOf(r, a.frame, a.status);
      ClosedTimeIs(r, a);
      RankBound(r.events, a.frame.at);
      FlushedIs(buckets, a);
      BucketDone(r, ClosedTime(r, a), buckets, p);
      SlipIs(KidsOf(buckets, p), node);
      DoneGainsSkill(r, ClosedTime(r, a), 2 * n + 1, ByPhase(p), KidsOf(buckets, p), Slip(KidsOf(buckets, p), node), node);
      DoneSwapped(r, ClosedTime(r, a), 2 * n + 1, buckets, p, Slip(KidsOf(buckets, p), node));
    } else {
      FlushesNothing(r, 0, buckets);
    }
  }

  lemma SlipIs(kids: Kids, node: Node)
    ensures Slip(kids, node).nodes == kids.nodes + [node]
  {
  }
}
