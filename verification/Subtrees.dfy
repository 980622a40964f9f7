/**
 Whole subtrees of the structure tree: the top-level skill each dispatch ends up
 under, and what a subtree's tokens are.
 */
module Subtrees {
  import opened Options
  import opened Transcript
  import opened Matching
  import opened Attribution
  import opened Structure
  import opened Tree
  import opened TreeSteps

  // ----- The top-level skill above a dispatch ----------------------------------------

  /** Parents outlast their children: they close later, or never. */
  ghost function Rank(events: seq<CostEvent>, i: nat): nat
    requires i < |events| && IsDispatch(events[i])
  {
    match ClosedBy(events, i)
    case Some(j) => j
    case None => 2 * |events| - i
  }

  lemma {:induction false} NestedLater(events: seq<CostEvent>, i: nat, k: nat, n: nat)
    requires i < k <= n <= |events| && IsDispatch(events[i])
    requires Scan(events, i, k).Nested? && Scan(events, i, n).Closed?
    ensures Scan(events, i, n).end >= k
    decreases n
  {
    if k < n && Scan(events, i, n - 1).Closed? {
      NestedLater(events, i, k, n - 1);
    }
  }

  lemma InFlightLater(events: seq<CostEvent>, k: nat, q: nat)
    requires q < k <= |events| && IsDispatch(events[q]) && q in OpenAt(events, k)
    ensures Rank(events, q) >= k
  {
    hide OpenAt, Scan;
    InFlight(events, k, q);
    if ClosedBy(events, q).Some? {
      NestedLater(events, q, k, |events|);
    }
  }

  lemma ParentLater(r: Run, i: nat)
    requires i < |r.events| && IsDispatch(r.events[i]) && ParentOf(r, i).Some?
    ensures var q := ParentOf(r, i).value;
            q < |r.events| && IsDispatch(r.events[q]) && Rank(r.events, q) > Rank(r.events, i)
  {
    hide OpenAt, Rank, Scan;
    if ClosedBy(r.events, i).Some? {
      OuterLater(r, i, ClosedBy(r.events, i).value);
    } else {
      LowerLater(r, i);
    }
  }

  lemma OuterLater(r: Run, i: nat, j: nat)
    requires i < |r.events| && IsDispatch(r.events[i]) && ClosedBy(r.events, i) == Some(j) && j < |r.events|
    requires OpenAt(r.events, j + 1) != []
    ensures var open := OpenAt(r.events, j + 1);
            var q := open[|open| - 1];
            q < |r.events| && IsDispatch(r.events[q]) && Rank(r.events, q) > Rank(r.events, i)
  {
    hide OpenAt, ClosedBy;
    var open := OpenAt(r.events, j + 1);
    assert FramesOf(r.events, open) && open[|open| - 1] in open;
    InFlightLater(r.events, j + 1, open[|open| - 1]);
  }

  lemma LowerLater(r: Run, i: nat)
    requires i < |r.events| && IsDispatch(r.events[i]) && ClosedBy(r.events, i).None?
    requires Below(OpenAt(r.events, |r.events|), i).Some?
    ensures var q := Below(OpenAt(r.events, |r.events|), i).value;
            q < |r.events| && IsDispatch(r.events[q]) && Rank(r.events, q) > Rank(r.events, i)
  {
    var n, open := |r.events|, OpenAt(r.events, |r.events|);
    assert FramesOf(r.events, open) && Ascending(open);
    hide OpenAt, ClosedBy, Below;
    BelowBefore(open, i);
    var q := Below(open, i).value;
    InFlightLater(r.events, n, q);
    ClosedInside(r.events, q);
  }

  lemma ClosedInside(events: seq<CostEvent>, i: nat)
    requires i < |events| && IsDispatch(events[i]) && Rank(events, i) >= |events|
    ensures Rank(events, i) == 2 * |events| - i
  {
    hide Scan;
  }

  lemma {:induction false} BelowBefore(open: seq<nat>, i: nat)
    requires Ascending(open) && Below(open, i).Some?
    ensures Below(open, i).value in open && Below(open, i).value < i
  {
    if open[|open| - 1] == i {
      assert open[|open| - 2] < open[|open| - 1];
    } else {
      BelowBefore(open[..|open| - 1], i);
    }
  }

  /** The top-level skill that dispatch i is listed under, directly or not. */
  ghost function RootOf(r: Run, i: nat): (root: nat)
    requires i < |r.events| && IsDispatch(r.events[i])
    ensures root < |r.events| && IsDispatch(r.events[root]) && ParentOf(r, root).None?
    decreases 2 * |r.events| - Rank(r.events, i)
  {
    if ParentOf(r, i).None? then i
    else
      assert Rank(r.events, ParentOf(r, i).value) <= 2 * |r.events| by {
        ParentLater(r, i);
      }
      ParentLater(r, i);
      RootOf(r, ParentOf(r, i).value)
  }

  // ----- What a list of labels owns ------------------------------------------------------

  ghost predicate Distinct(m: multiset<Label>) {
    forall l :: m[l] <= 1
  }

  ghost function OwnersOf(m: multiset<Label>): set<Owner> {
    set l | l in m && l.SkillAt? :: ByFrame(l.at)
  }

  lemma OwnsAt(m: multiset<Label>, i: nat)
    ensures ByFrame(i) in OwnersOf(m) <==> SkillAt(i) in m
  {
    if SkillAt(i) in m {
      assert ByFrame(SkillAt(i).at) in OwnersOf(m);
    }
  }

  lemma OwnersSplit(a: multiset<Label>, b: multiset<Label>)
    requires Distinct(a + b)
    ensures OwnersOf(a + b) == OwnersOf(a) + OwnersOf(b) && OwnersOf(a) !! OwnersOf(b)
    ensures Distinct(a) && Distinct(b)
  {
    forall l ensures a[l] <= 1 && b[l] <= 1 && (l in a ==> l !in b) {
      assert (a + b)[l] == a[l] + b[l];
    }
    forall o | o in OwnersOf(a) ensures o !in OwnersOf(b) {
      OwnsAt(a, o.at);
      OwnsAt(b, o.at);
    }
  }

  lemma OwnersOfSkill(at: nat)
    ensures OwnersOf(multiset{SkillAt(at)}) == {ByFrame(at)}
  {
    var m := multiset{SkillAt(at)};
    OwnsAt(m, at);
    forall o | o in OwnersOf(m) ensures o == ByFrame(at) {
    }
  }

  /** Anything but a skill owns nothing. */
  lemma OwnsNothing(r: Run, parent: Option<nat>, node: Node)
    requires NodeOk(r, parent, node) && !node.SkillNode?
    ensures OwnersOf(Labels(node)) == {}
  {
    hide NodeOk;
    forall l | l in Labels(node) ensures l.ToolAt? {
      if node.GroupNode? {
        OnlyTools(node.tools, l);
      } else {
        NotInline(r, parent, node);
      }
    }
  }

  lemma NotInline(r: Run, parent: Option<nat>, node: Node)
    requires NodeOk(r, parent, node)
    ensures !node.InlineNode?
  {
  }

  lemma {:induction false} OnlyTools(tools: seq<Tool>, l: Label)
    requires l in ToolLabels(tools)
    ensures l.ToolAt?
  {
    if l != ToolAt(tools[|tools| - 1].at) {
      OnlyTools(tools[..|tools| - 1], l);
    }
  }

  ghost function Held(r: Run, m: multiset<Label>): Tokens {
    Share(r.events, TurnOwners(r), |r.events|, OwnersOf(m))
  }

  lemma HeldSplit(r: Run, a: multiset<Label>, b: multiset<Label>)
    requires Distinct(a + b)
    ensures Held(r, a + b) == Held(r, a).Plus(Held(r, b)) && Distinct(a) && Distinct(b)
  {
    hide Share, TurnOwners, OwnersOf;
    OwnersSplit(a, b);
    ShareUnion(r.events, TurnOwners(r), |r.events|, OwnersOf(a), OwnersOf(b));
  }

  lemma HeldNone(r: Run, m: multiset<Label>)
    requires OwnersOf(m) == {}
    ensures Held(r, m) == EmptyTokens
  {
    hide TurnOwners, OwnersOf;
    ShareOfNone(r.events, TurnOwners(r), |r.events|, {});
  }

  /** A skill's counters are the usage of every turn of its own and of every
      skill below it, each turn once. */
  lemma {:induction false} SubtreeTokens(r: Run, parent: Option<nat>, node: Node)
    requires NodeOk(r, parent, node) && node.SkillNode? && Distinct(Labels(node))
    ensures node.tokens == Held(r, Labels(node))
    decreases node, |node.children| + 1
  {
    var own, below := multiset{SkillAt(node.at)}, AllLabels(node.children);
    assert Labels(node) == own + below;
    SkillNodeFacts(r, parent, node);
    hide *;
    HeldSplit(r, own, below);
    OwnersOfSkill(node.at);
    HeldOwn(r, node.at);
    assert node.children[..|node.children|] == node.children;
    ChildrenTokens(r, Some(node.at), node, |node.children|);
  }

  lemma HeldOwn(r: Run, at: nat)
    ensures Held(r, multiset{SkillAt(at)}) == OwnShare(r, |r.events|, ByFrame(at))
  {
    hide Share, TurnOwners, OwnersOf;
    OwnersOfSkill(at);
  }

  lemma SkillNodeFacts(r: Run, parent: Option<nat>, node: Node)
    requires NodeOk(r, parent, node) && node.SkillNode?
    ensures node.at < |r.events| && IsDispatch(r.events[node.at]) && ParentOf(r, node.at) == parent
    ensures node.status == StatusOf(r.events, node.at)
    ensures node.tokens == OwnShare(r, |r.events|, ByFrame(node.at)).Plus(SkillTokens(node.children))
    ensures forall c | 0 <= c < |node.children| :: NodeOk(r, Some(node.at), node.children[c])
  {
    hide ParentOf, OwnShare, SkillTokens, StatusOf, ToolOk, GroupOk, OpenAt;
  }

  lemma {:induction false} ChildrenTokens(r: Run, parent: Option<nat>, holder: Node, n: nat)
    requires (holder.SkillNode? || holder.InlineNode?) && n <= |holder.children|
    requires forall c | 0 <= c < |holder.children| :: NodeOk(r, parent, holder.children[c])
    requires Distinct(AllLabels(holder.children[..n]))
    ensures SkillTokens(holder.children[..n]) == Held(r, AllLabels(holder.children[..n]))
    decreases holder, n
  {
    hide NodeOk, OwnersOf, Held;
    if n == 0 {
      HeldEmpty(r);
    } else {
      var before, last := holder.children[..n - 1], holder.children[n - 1];
      assert holder.children[..n] == before + [last];
      AllLabelsSnoc(before, last);
      SkillTokensSnoc(before, last);
      hide AllLabels, Labels, SkillTokens, Distinct;
      HeldSplit(r, AllLabels(before), Labels(last));
      ChildrenTokens(r, parent, holder, n - 1);
      if last.SkillNode? {
        SubtreeTokens(r, parent, last);
      } else {
        OwnsNothing(r, parent, last);
        HeldNone(r, Labels(last));
      }
    }
  }

  lemma HeldEmpty(r: Run)
    ensures Held(r, multiset{}) == EmptyTokens
  {
    assert OwnersOf(multiset{}) == {};
    HeldNone(r, multiset{});
  }

  // ----- Every label of a subtree has the same root -------------------------------------------

  lemma {:induction false} OneRoot(r: Run, parent: Option<nat>, node: Node, i: nat)
    requires NodeOk(r, parent, node) && node.SkillNode? && SkillAt(i) in Labels(node)
    ensures node.at < |r.events| && IsDispatch(r.events[node.at]) && i < |r.events| && IsDispatch(r.events[i])
    ensures RootOf(r, i) == RootOf(r, node.at)
    decreases node, |node.children| + 1
  {
    assert Labels(node) == multiset{SkillAt(node.at)} + AllLabels(node.children);
    SkillNodeFacts(r, parent, node);
    hide *;
    if i != node.at {
      assert node.children[..|node.children|] == node.children;
      RootBelow(r, Some(node.at), node, |node.children|, i);
    }
  }

  lemma {:induction false} RootBelow(r: Run, parent: Option<nat>, holder: Node, n: nat, i: nat)
    requires (holder.SkillNode? || holder.InlineNode?) && n <= |holder.children|
    requires forall c | 0 <= c < |holder.children| :: NodeOk(r, parent, holder.children[c])
    requires SkillAt(i) in AllLabels(holder.children[..n])
    requires parent.Some? ==> parent.value < |r.events| && IsDispatch(r.events[parent.value])
    ensures i < |r.events| && IsDispatch(r.events[i])
    ensures parent.Some? ==> RootOf(r, i) == RootOf(r, parent.value)
    ensures parent.None? ==> exists c :: 0 <= c < n && holder.children[c].SkillNode? && holder.children[c].at == RootOf(r, i)
    decreases holder, n
  {
    hide NodeOk, RootOf, Labels;
    var before, last := holder.children[..n - 1], holder.children[n - 1];
    assert holder.children[..n] == before + [last];
    AllLabelsSnoc(before, last);
    hide AllLabels;
    if SkillAt(i) in AllLabels(before) {
      RootBelow(r, parent, holder, n - 1, i);
    } else {
      SkillLabel(r, parent, last, i);
      OneRoot(r, parent, last, i);
      SkillNodeFacts(r, parent, last);
      RootStep(r, last.at);
    }
  }

  lemma SkillLabel(r: Run, parent: Option<nat>, node: Node, i: nat)
    requires NodeOk(r, parent, node) && SkillAt(i) in Labels(node)
    ensures node.SkillNode?
  {
    hide NodeOk, Labels, OwnersOf;
    if !node.SkillNode? {
      OwnsNothing(r, parent, node);
      OwnsAt(Labels(node), i);
    }
  }

  lemma RootStep(r: Run, i: nat)
    requires i < |r.events| && IsDispatch(r.events[i])
    ensures ParentOf(r, i).None? ==> RootOf(r, i) == i
    ensures ParentOf(r, i).Some? ==>
              ParentOf(r, i).value < |r.events| && IsDispatch(r.events[ParentOf(r, i).value])
              && RootOf(r, i) == RootOf(r, ParentOf(r, i).value)
  {
    hide ParentOf;
    if ParentOf(r, i).Some? {
      ParentLater(r, i);
    }
  }

  // ----- Every call is labelled once ---------------------------------------------------------------

  lemma {:induction false} LabelCount(events: seq<CostEvent>, k: nat, l: Label)
    requires k <= |events|
    ensures EventLabels(events, k)[l] ==
            if l.at < k && (if l.SkillAt? then IsDispatch(events[l.at]) else IsTool(events[l.at])) then 1 else 0
  {
    hide IsDispatch, IsTool, LabelOf;
    if k > 0 {
      LabelCount(events, k - 1, l);
      OneLabel(events[k - 1], k - 1, l);
      assert EventLabels(events, k)[l] == EventLabels(events, k - 1)[l] + LabelOf(events[k - 1], k - 1)[l];
    }
  }

  lemma OneLabel(e: CostEvent, k: nat, l: Label)
    ensures LabelOf(e, k)[l] == if l.at == k && (if l.SkillAt? then IsDispatch(e) else IsTool(e)) then 1 else 0
  {
  }

  lemma EventLabelsDistinct(events: seq<CostEvent>, k: nat)
    requires k <= |events|
    ensures Distinct(EventLabels(events, k))
  {
    hide EventLabels;
    forall l ensures EventLabels(events, k)[l] <= 1 {
      LabelCount(events, k, l);
    }
  }

  lemma DistinctWithin(a: multiset<Label>, b: multiset<Label>)
    requires a <= b && Distinct(b)
    ensures Distinct(a)
  {
    forall l ensures a[l] <= 1 {
      assert a[l] <= b[l];
    }
  }
}
