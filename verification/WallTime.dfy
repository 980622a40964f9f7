/**
 Interval arithmetic of apps/ingest/_common.py. Timestamps are microseconds;
 what `datetime` subtraction and `round` do to them is exact here.
 */
module WallTime {
  import opened Collections
  import opened Options

  /** A span whose endpoints may be missing. */
  datatype Interval = Interval(start: Option<int>, end: Option<int>) {
    predicate Valid() {
      start.Some? && end.Some? && start.value <= end.value
    }

    predicate Covers(t: int) {
      Valid() && start.value <= t < end.value
    }
  }

  const SECOND := 1_000_000

  /** Python's `int(round(us / 1e6))`: to the nearest second, ties to even. */
  function RoundSeconds(us: nat): nat {
    var q, r := us / SECOND, us % SECOND;
    if 2 * r < SECOND || (2 * r == SECOND && q % 2 == 0) then q else q + 1
  }

  lemma RoundMonotone(a: nat, b: nat)
    requires a <= b
    ensures RoundSeconds(a) <= RoundSeconds(b)
  {
    if a / SECOND == b / SECOND {
      assert a % SECOND <= b % SECOND;
    } else {
      assert a / SECOND < b / SECOND;
    }
  }

  /** The nearest whole second; halfway between two, the even one. */
  lemma RoundsToNearest(us: nat)
    ensures var far := us as int - 1_000_000 * RoundSeconds(us);
            -500_000 <= far <= 500_000 && (far == 500_000 || far == -500_000 ==> RoundSeconds(us) % 2 == 0)
  {
  }

  function WallTimeSeconds(start: Option<int>, end: Option<int>): nat {
    if start.None? || end.None? || end.value < start.value then 0 else RoundSeconds(end.value - start.value)
  }

  // ----- The measure of a union -------------------------------------------

  ghost function Range(lo: int, hi: int): (s: set<int>)
    ensures forall t :: t in s <==> lo <= t < hi
    decreases hi - lo
  {
    if lo >= hi then {} else Range(lo, hi - 1) + {hi - 1}
  }

  lemma {:induction false} RangeSize(lo: int, hi: int)
    requires lo <= hi
    ensures |Range(lo, hi)| == hi - lo
    decreases hi - lo
  {
    if lo < hi {
      RangeSize(lo, hi - 1);
    }
  }

  ghost function Points(iv: Interval): (s: set<int>)
    ensures forall t :: t in s <==> iv.Covers(t)
  {
    if iv.Valid() then Range(iv.start.value, iv.end.value) else {}
  }

  /** Every microsecond covered by some interval of the list. */
  ghost function Covered(ivs: seq<Interval>): (s: set<int>)
    ensures forall t :: t in s <==> exists i :: 0 <= i < |ivs| && ivs[i].Covers(t)
  {
    if ivs == [] then {} else
      var s := Covered(ivs[..|ivs| - 1]);
      s + Points(ivs[|ivs| - 1])
  }

  ghost function UnionMeasure(ivs: seq<Interval>): nat {
    |Covered(ivs)|
  }

  /** Order and repetition do not matter, and more intervals cover no less. */
  lemma UnionMonotone(a: seq<Interval>, b: seq<Interval>)
    requires forall iv :: iv in a ==> iv in b
    ensures Covered(a) <= Covered(b)
    ensures RoundSeconds(UnionMeasure(a)) <= RoundSeconds(UnionMeasure(b))
  {
    forall t | t in Covered(a) ensures t in Covered(b) {
      var i :| 0 <= i < |a| && a[i].Covers(t);
      assert a[i] in b;
      var j :| 0 <= j < |b| && b[j] == a[i];
    }
    SubsetSize(Covered(a), Covered(b));
    RoundMonotone(UnionMeasure(a), UnionMeasure(b));
  }

  lemma UnionOrderIndependent(a: seq<Interval>, b: seq<Interval>)
    requires forall iv :: iv in a <==> iv in b
    ensures Covered(a) == Covered(b)
    ensures UnionMeasure(a) == UnionMeasure(b)
  {
    UnionMonotone(a, b);
    UnionMonotone(b, a);
  }

  /** A session's wall is the rounded measure of the span from its first event to its last. */
  lemma SessionWall(start: Option<int>, end: Option<int>)
    ensures WallTimeSeconds(start, end) == RoundSeconds(UnionMeasure([Interval(start, end)]))
  {
    var iv := Interval(start, end);
    OneCovered(iv);
    RoundsNothing();
    hide Covered, RoundSeconds;
    if iv.Valid() {
      RangeSize(start.value, end.value);
    }
  }

  lemma RoundsNothing()
    ensures RoundSeconds(0) == 0
  {
  }

  lemma OneCovered(iv: Interval)
    ensures Covered([iv]) == Points(iv)
  {
    assert [iv][..0] == [] && Covered([]) == {};
  }

  /** Intervals inside a span cannot cover more than the span. */
  lemma UnionWithin(ivs: seq<Interval>, lo: int, hi: int)
    requires lo <= hi
    requires forall i | 0 <= i < |ivs| && ivs[i].Valid() :: lo <= ivs[i].start.value && ivs[i].end.value <= hi
    ensures UnionMeasure(ivs) <= hi - lo
  {
    forall t | t in Covered(ivs) ensures t in Range(lo, hi) {
      var i :| 0 <= i < |ivs| && ivs[i].Covers(t);
    }
    SubsetSize(Covered(ivs), Range(lo, hi));
    RangeSize(lo, hi);
  }

  // ----- The sweep ---------------------------------------------------------

  ghost predicate SortedByStart(ivs: seq<Interval>) {
    (forall i | 0 <= i < |ivs| :: ivs[i].Valid())
    && forall i, j | 0 <= i < j < |ivs| :: ivs[i].start.value <= ivs[j].start.value
  }

  /** Python's stable `list.sort(key=start)`, by insertion. */
  function SortByStart(ivs: seq<Interval>): (sorted: seq<Interval>)
    requires forall i | 0 <= i < |ivs| :: ivs[i].Valid()
    ensures SortedByStart(sorted)
    ensures forall iv :: iv in sorted <==> iv in ivs
    ensures |sorted| == |ivs|
  {
    if ivs == [] then [] else Insert(ivs[0], SortByStart(ivs[1..]))
  }

  function Insert(iv: Interval, ivs: seq<Interval>): (sorted: seq<Interval>)
    requires iv.Valid() && SortedByStart(ivs)
    ensures SortedByStart(sorted)
    ensures forall x :: x in sorted <==> x == iv || x in ivs
    ensures |sorted| == |ivs| + 1
  {
    if ivs == [] || iv.start.value <= ivs[0].start.value then [iv] + ivs
    else
      assert ivs == [ivs[0]] + ivs[1..];
      var rest := Insert(iv, ivs[1..]);
      assert forall i | 0 <= i < |rest| :: rest[i] in rest;
      [ivs[0]] + rest
  }

  method UnionSeconds(intervals: seq<Interval>) returns (seconds: nat)
    ensures seconds == RoundSeconds(UnionMeasure(intervals))
  {
    var clean: seq<Interval> := [];
    for i := 0 to |intervals|
      invariant forall iv :: iv in clean <==> iv in intervals[..i] && iv.Valid()
    {
      if intervals[i].Valid() {
        clean := clean + [intervals[i]];
      }
    }
    assert intervals[..|intervals|] == intervals;
    SameCover(intervals, clean);
    if clean == [] {
      return 0;
    }
    var sorted := SortByStart(clean);
    UnionOrderIndependent(clean, sorted);
    var total := Sweep(sorted);
    seconds := RoundSeconds(total);
  }

  /** The loop over the sorted intervals. */
  method Sweep(sorted: seq<Interval>) returns (total: nat)
    requires sorted != [] && SortedByStart(sorted)
    ensures total == UnionMeasure(sorted)
  {
    var curStart, curEnd := sorted[0].start.value, sorted[0].end.value;
    var done := 0;
    SweepStart(sorted);
    for m := 1 to |sorted|
      invariant curStart <= sorted[m - 1].start.value
      invariant Swept(Covered(sorted[..m]), done, curStart, curEnd)
    {
      var s, e := sorted[m].start.value, sorted[m].end.value;
      CoverOneMore(sorted, m);
      if s > curEnd {
        SweepGap(Covered(sorted[..m]), done, curStart, curEnd, s, e);
        done := done + (curEnd - curStart);
        curStart, curEnd := s, e;
      } else if e > curEnd {
        SweepOverlap(Covered(sorted[..m]), done, curStart, curEnd, s, e);
        curEnd := e;
      } else {
        SweepInside(Covered(sorted[..m]), done, curStart, curEnd, s, e);
      }
    }
    assert sorted[..|sorted|] == sorted;
    total := done + (curEnd - curStart);
  }

  lemma SameCover(ivs: seq<Interval>, clean: seq<Interval>)
    requires forall iv :: iv in clean <==> iv in ivs && iv.Valid()
    ensures Covered(ivs) == Covered(clean)
  {
    forall t | t in Covered(ivs) ensures t in Covered(clean) {
      var i :| 0 <= i < |ivs| && ivs[i].Covers(t);
      assert ivs[i] in clean;
      var j :| 0 <= j < |clean| && clean[j] == ivs[i];
    }
    UnionMonotone(clean, ivs);
  }

  lemma CoverOneMore(ivs: seq<Interval>, m: nat)
    requires m < |ivs|
    ensures Covered(ivs[..m + 1]) == Covered(ivs[..m]) + Points(ivs[m])
  {
    assert ivs[..m + 1][..m] == ivs[..m];
  }

  /** The sweep's invariant: of the covered set, `total` lies in finished
      spans and the rest is the current span, which ends the set. */
  ghost predicate Swept(covered: set<int>, total: int, curStart: int, curEnd: int) {
    total >= 0 && curStart <= curEnd
    && |covered| == total + (curEnd - curStart)
    && Range(curStart, curEnd) <= covered
    && forall t :: t in covered ==> t < curEnd
  }

  lemma SweepStart(sorted: seq<Interval>)
    requires sorted != [] && SortedByStart(sorted)
    ensures Swept(Covered(sorted[..1]), 0, sorted[0].start.value, sorted[0].end.value)
  {
    CoverOneMore(sorted, 0);
    assert Covered(sorted[..0]) == {};
    RangeSize(sorted[0].start.value, sorted[0].end.value);
    assert {} + Points(sorted[0]) == Range(sorted[0].start.value, sorted[0].end.value);
  }

  lemma SweepGap(covered: set<int>, total: int, curStart: int, curEnd: int, s: int, e: int)
    requires Swept(covered, total, curStart, curEnd) && curEnd < s <= e
    ensures Swept(covered + Range(s, e), total + (curEnd - curStart), s, e)
  {
    RangeSize(s, e);
    assert covered !! Range(s, e);
  }

  lemma SweepOverlap(covered: set<int>, total: int, curStart: int, curEnd: int, s: int, e: int)
    requires Swept(covered, total, curStart, curEnd) && curStart <= s <= curEnd < e
    ensures Swept(covered + Range(s, e), total, curStart, e)
  {
    RangeSize(curEnd, e);
    forall t | t in Range(s, e) ensures t in covered + Range(curEnd, e) {
      assert t < curEnd ==> t in Range(curStart, curEnd);
    }
    assert covered + Range(s, e) == covered + Range(curEnd, e);
    assert covered !! Range(curEnd, e);
    forall t | t in Range(curStart, e) ensures t in covered + Range(curEnd, e) {
      assert t < curEnd ==> t in Range(curStart, curEnd);
    }
  }

  lemma SweepInside(covered: set<int>, total: int, curStart: int, curEnd: int, s: int, e: int)
    requires Swept(covered, total, curStart, curEnd) && curStart <= s <= e <= curEnd
    ensures Swept(covered + Range(s, e), total, curStart, curEnd)
  {
    forall t | t in Range(s, e) ensures t in covered {
      assert t in Range(curStart, curEnd);
    }
    assert covered + Range(s, e) == covered;
  }
}
