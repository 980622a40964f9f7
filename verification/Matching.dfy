/**
 Which Skill/Agent dispatches are in flight. Both folds keep a list of open
 frames, in the order they were opened, and a tool result closes the last one
 whose tool-use id it names: frames need not close in the order they nest.
 */
module Matching {
  import opened Options
  import opened Transcript

  predicate IsDispatch(e: CostEvent) {
    e.ToolUse? && (e.name == Some("Skill") || e.name == Some("Agent"))
  }

  function FrameId(e: CostEvent): string
    requires e.ToolUse?
  {
    GetOr(e.useId, "")
  }

  predicate Closes(e: CostEvent, id: string) {
    e.ToolResult? && e.matched == Some(id)
  }

  ghost predicate FramesOf(events: seq<CostEvent>, open: seq<nat>) {
    forall p | 0 <= p < |open| :: open[p] < |events| && IsDispatch(events[open[p]])
  }

  ghost predicate Ascending(open: seq<nat>) {
    forall p, q | 0 <= p < q < |open| :: open[p] < open[q]
  }

  /** Position of the last open frame with the given id, or -1. */
  ghost function LastWith(events: seq<CostEvent>, open: seq<nat>, id: Option<string>): (p: int)
    requires FramesOf(events, open)
    ensures -1 <= p < |open|
    ensures p >= 0 ==> Some(FrameId(events[open[p]])) == id
    ensures forall q | p < q < |open| :: Some(FrameId(events[open[q]])) != id
  {
    if open == [] then -1
    else
      var n := |open| - 1;
      if Some(FrameId(events[open[n]])) == id then n else LastWith(events, open[..n], id)
  }

  ghost function Without(open: seq<nat>, p: nat): (rest: seq<nat>)
    requires p < |open|
    ensures |rest| == |open| - 1
    ensures forall q | 0 <= q < |rest| :: rest[q] == open[if q < p then q else q + 1]
  {
    open[..p] + open[p + 1..]
  }

  /** The dispatches in flight after the first k events, oldest first. */
  ghost function OpenAt(events: seq<CostEvent>, k: nat): (open: seq<nat>)
    requires k <= |events|
    ensures FramesOf(events, open) && Ascending(open)
    ensures forall p | 0 <= p < |open| :: open[p] < k
  {
    if k == 0 then [] else
      var open, e := OpenAt(events, k - 1), events[k - 1];
      if IsDispatch(e) then open + [k - 1]
      else if !e.ToolResult? then open
      else
        var p := LastWith(events, open, e.matched);
        if p < 0 then open else Without(open, p)
  }

  // ----- What becomes of one dispatch, read off the stream alone ---------

  /** A frame is still open under `depth` later frames of its own id, or it
      was closed by the event at index `end`. */
  datatype FrameState = Nested(depth: nat) | Closed(end: nat)

  ghost function Scan(events: seq<CostEvent>, i: nat, k: nat): (s: FrameState)
    requires i < k <= |events| && IsDispatch(events[i])
    ensures s.Closed? ==> i < s.end < k && Closes(events[s.end], FrameId(events[i]))
    decreases k
  {
    if k == i + 1 then Nested(0)
    else
      var s, e, id := Scan(events, i, k - 1), events[k - 1], FrameId(events[i]);
      if s.Closed? then s
      else if IsDispatch(e) && FrameId(e) == id then Nested(s.depth + 1)
      else if Closes(e, id) then if s.depth == 0 then Closed(k - 1) else Nested(s.depth - 1)
      else s
  }

  /** The tool result that closes dispatch i, if the stream has one. */
  ghost function ClosedBy(events: seq<CostEvent>, i: nat): (r: Option<nat>)
    requires i < |events| && IsDispatch(events[i])
    ensures r.Some? ==> i < r.value < |events| && Closes(events[r.value], FrameId(events[i]))
  {
    match Scan(events, i, |events|)
    case Closed(j) => Some(j)
    case Nested(_) => None
  }

  /** How many open frames were opened after i under i's own id. */
  ghost function Later(events: seq<CostEvent>, open: seq<nat>, i: nat): nat
    requires FramesOf(events, open) && i < |events| && IsDispatch(events[i])
  {
    if open == [] then 0
    else
      var n := |open| - 1;
      Later(events, open[..n], i)
      + (if open[n] > i && FrameId(events[open[n]]) == FrameId(events[i]) then 1 else 0)
  }

  lemma {:induction false} LaterZero(events: seq<CostEvent>, open: seq<nat>, i: nat)
    requires FramesOf(events, open) && i < |events| && IsDispatch(events[i])
    ensures Later(events, open, i) == 0 <==>
            forall p | 0 <= p < |open| && open[p] > i :: FrameId(events[open[p]]) != FrameId(events[i])
  {
    if open != [] {
      LaterZero(events, open[..|open| - 1], i);
    }
  }

  lemma {:induction false} LaterWithout(events: seq<CostEvent>, open: seq<nat>, p: nat, i: nat)
    requires FramesOf(events, open) && p < |open| && i < |events| && IsDispatch(events[i])
    ensures FramesOf(events, Without(open, p))
    ensures Later(events, open, i) == Later(events, Without(open, p), i)
              + (if open[p] > i && FrameId(events[open[p]]) == FrameId(events[i]) then 1 else 0)
  {
    var n := |open| - 1;
    if p == n {
      assert Without(open, p) == open[..n];
    } else {
      LaterWithout(events, open[..n], p, i);
      assert Without(open, p)[..n - 1] == Without(open[..n], p);
    }
  }

  lemma WithoutMembers(open: seq<nat>, p: nat, i: nat)
    requires Ascending(open) && p < |open|
    ensures i in Without(open, p) <==> i in open && i != open[p]
  {
    if i in open && i != open[p] {
      var q :| 0 <= q < |open| && open[q] == i;
      assert Without(open, p)[if q < p then q else q - 1] == i;
    }
  }

  /** The open list and the scan agree about dispatch i after k events. */
  ghost predicate Agree(events: seq<CostEvent>, k: nat, i: nat)
    requires i < k <= |events| && IsDispatch(events[i])
  {
    var open, s := OpenAt(events, k), Scan(events, i, k);
    (i in open <==> s.Nested?) && (s.Nested? ==> s.depth == Later(events, open, i))
  }

  /** Dispatch i is in the open list exactly while its scan has met no closing
      result, and its depth there is the number of later open frames of its id.
      So a result closes the latest open frame of its id and no other, whatever
      order frames nest in. */
  lemma {:induction false} OpenIsScan(events: seq<CostEvent>, k: nat, i: nat)
    requires i < k <= |events| && IsDispatch(events[i])
    ensures Agree(events, k, i)
    decreases k
  {
    hide *;
    if k == i + 1 {
      OpenedNow(events, i);
    } else {
      OpenIsScan(events, k - 1, i);
      if IsDispatch(events[k - 1]) {
        AgreeAfterDispatch(events, k, i);
      } else if events[k - 1].ToolResult? {
        AgreeAfterResult(events, k, i);
      } else {
        AgreeAfterOther(events, k, i);
      }
    }
  }

  lemma AgreeAfterOther(events: seq<CostEvent>, k: nat, i: nat)
    requires i + 1 < k <= |events| && IsDispatch(events[i]) && !IsDispatch(events[k - 1]) && !events[k - 1].ToolResult?
    requires Agree(events, k - 1, i)
    ensures Agree(events, k, i)
  {
    hide Later;
  }

  lemma OpenedNow(events: seq<CostEvent>, i: nat)
    requires i < |events| && IsDispatch(events[i])
    ensures Agree(events, i + 1, i)
  {
    LaterZero(events, OpenAt(events, i + 1), i);
    assert OpenAt(events, i + 1)[|OpenAt(events, i)|] == i;
  }

  lemma AgreeAfterDispatch(events: seq<CostEvent>, k: nat, i: nat)
    requires i + 1 < k <= |events| && IsDispatch(events[i]) && IsDispatch(events[k - 1])
    requires Agree(events, k - 1, i)
    ensures Agree(events, k, i)
  {
    var before, open := OpenAt(events, k - 1), OpenAt(events, k);
    assert open[..|open| - 1] == before;
  }

  lemma AgreeAfterResult(events: seq<CostEvent>, k: nat, i: nat)
    requires i + 1 < k <= |events| && IsDispatch(events[i]) && events[k - 1].ToolResult?
    requires Agree(events, k - 1, i)
    ensures Agree(events, k, i)
  {
    var before, e := OpenAt(events, k - 1), events[k - 1];
    var p := LastWith(events, before, e.matched);
    LaterZero(events, before, i);
    if p < 0 {
      if i in before {
        var q :| 0 <= q < |before| && before[q] == i;
        assert !Closes(e, FrameId(events[i]));
      }
    } else {
      LaterWithout(events, before, p, i);
      WithoutMembers(before, p, i);
      if i in before {
        ClosesNewest(events, before, p, e.matched, i);
      }
    }
  }

  /** Of the frames with the closed id, the closed one is the newest. */
  lemma ClosesNewest(events: seq<CostEvent>, open: seq<nat>, p: nat, id: Option<string>, i: nat)
    requires FramesOf(events, open) && Ascending(open) && p == LastWith(events, open, id)
    requires i < |events| && IsDispatch(events[i]) && i in open
    ensures Some(FrameId(events[i])) == id ==> i <= open[p]
    ensures i == open[p] ==> Later(events, open, i) == 0
    ensures Some(FrameId(events[i])) != id ==> FrameId(events[open[p]]) != FrameId(events[i])
  {
    LaterZero(events, open, i);
    var q :| 0 <= q < |open| && open[q] == i;
  }

  lemma InFlight(events: seq<CostEvent>, k: nat, i: nat)
    requires i < k <= |events| && IsDispatch(events[i])
    ensures i in OpenAt(events, k) <==> Scan(events, i, k).Nested?
  {
    hide OpenAt, Scan, Later;
    OpenIsScan(events, k, i);
  }

  lemma LastWithIs(events: seq<CostEvent>, open: seq<nat>, id: Option<string>, p: int)
    requires FramesOf(events, open) && -1 <= p < |open|
    requires p >= 0 ==> Some(FrameId(events[open[p]])) == id
    requires forall q | p < q < |open| :: Some(FrameId(events[open[q]])) != id
    ensures LastWith(events, open, id) == p
  {
    hide LastWith;
    var last := LastWith(events, open, id);
    assert last < 0 || p < 0 || last == p || last < p || p < last;
  }

  /** The dispatches already closed by a result. */
  ghost function Done(events: seq<CostEvent>, k: nat): (done: set<nat>)
    requires k <= |events|
    ensures forall i: nat :: i in done <==> i < k && IsDispatch(events[i]) && i !in OpenAt(events, k)
  {
    set i | 0 <= i < k && IsDispatch(events[i]) && i !in OpenAt(events, k)
  }

  /** A result that matches takes exactly one dispatch out of flight, and is
      the event that closes it. */
  lemma ClosesOne(events: seq<CostEvent>, k: nat, p: nat)
    requires k < |events| && events[k].ToolResult?
    requires p < |OpenAt(events, k)| && p == LastWith(events, OpenAt(events, k), events[k].matched)
    ensures var i := OpenAt(events, k)[p];
            Done(events, k + 1) == Done(events, k) + {i} && i !in Done(events, k) && ClosedBy(events, i) == Some(k)
  {
    var before, after := OpenAt(events, k), OpenAt(events, k + 1);
    OpenAfterClose(events, k, p);
    var x := before[p];
    hide OpenAt, LastWith, Without, ClosedBy, Done;
    forall i: nat | i <= k ensures i in after <==> i in before && i != x {
      WithoutMembers(before, p, i);
    }
    assert x in before && x !in after;
    ClosedNow(events, k, x);
    forall i: nat ensures i in Done(events, k + 1) <==> i in Done(events, k) + {x} {
      assert i == k ==> !IsDispatch(events[i]);
    }
  }

  lemma OpenAfterClose(events: seq<CostEvent>, k: nat, p: nat)
    requires k < |events| && events[k].ToolResult?
    requires p < |OpenAt(events, k)| && p == LastWith(events, OpenAt(events, k), events[k].matched)
    ensures OpenAt(events, k + 1) == Without(OpenAt(events, k), p)
  {
    hide Without;
  }

  lemma ClosedNow(events: seq<CostEvent>, k: nat, i: nat)
    requires i < k < |events| && IsDispatch(events[i])
    requires i in OpenAt(events, k) && i !in OpenAt(events, k + 1)
    ensures ClosedBy(events, i) == Some(k)
  {
    hide OpenAt, Scan;
    InFlight(events, k, i);
    InFlight(events, k + 1, i);
    EndsAt(events, i, k);
    ScanSettled(events, i, k + 1, |events|);
  }

  lemma EndsAt(events: seq<CostEvent>, i: nat, k: nat)
    requires i < k < |events| && IsDispatch(events[i])
    requires Scan(events, i, k).Nested? && Scan(events, i, k + 1).Closed?
    ensures Scan(events, i, k + 1) == Closed(k)
  {
  }

  lemma {:induction false} ScanSettled(events: seq<CostEvent>, i: nat, k: nat, n: nat)
    requires i < k <= n <= |events| && IsDispatch(events[i]) && Scan(events, i, k).Closed?
    ensures Scan(events, i, n) == Scan(events, i, k)
    decreases n
  {
    if k < n {
      ScanSettled(events, i, k, n - 1);
    }
  }

  lemma DoneKept(events: seq<CostEvent>, k: nat)
    requires k < |events|
    requires IsDispatch(events[k]) || OpenAt(events, k + 1) == OpenAt(events, k)
    ensures Done(events, k + 1) == Done(events, k)
  {
    var before, after := OpenAt(events, k), OpenAt(events, k + 1);
    assert after == before || after == before + [k];
    hide OpenAt, Done;
    forall i: nat ensures i in Done(events, k + 1) <==> i in Done(events, k) {
      assert i != k ==> (i in after <==> i in before);
      assert i == k && IsDispatch(events[k]) ==> i in after;
    }
  }
}
