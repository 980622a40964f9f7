/**
 The fixed-window limiter of apps/common/rate_limit.py, on a cache whose entries
 expire.
 */
module RateLimit {
  import opened Options

  /** The cached counter of one bucket, and when the cache drops it. */
  datatype Counter = Counter(count: nat, expires: int)

  /** The cache has an entry at time `now`. */
  predicate Holds(c: Option<Counter>, now: int) {
    c.Some? && now < c.value.expires
  }

  // ----- What a run of calls does -----------------------------------------------------

  /** Start of the window that call k falls in. */
  function WindowOf(times: seq<int>, window: nat, k: nat): int
    requires k < |times|
  {
    if k == 0 then times[0]
    else
      var start := WindowOf(times, window, k - 1);
      if times[k] < start + window then start else times[k]
  }

  /** Which call of its window call k is. */
  function Place(times: seq<int>, window: nat, k: nat): (n: nat)
    requires k < |times|
    ensures n > 0
  {
    if k == 0 || times[k] >= WindowOf(times, window, k - 1) + window then 1 else Place(times, window, k - 1) + 1
  }

  predicate Admits(times: seq<int>, window: nat, limit: nat, k: nat)
    requires k < |times|
  {
    Place(times, window, k) == 1 || Place(times, window, k) <= limit
  }

  class Limiter {
    const limit: nat
    const window: nat
    var counter: Option<Counter>

    constructor (limit: nat, window: nat)
      ensures this.limit == limit && this.window == window && counter.None?
    {
      this.limit, this.window, counter := limit, window, None;
    }

    /** The counter is what the first k calls left. */
    ghost predicate After(times: seq<int>, k: nat)
      requires k <= |times|
      reads this
    {
      if k == 0 then counter.None?
      else counter == Some(Counter(Place(times, window, k - 1), WindowOf(times, window, k - 1) + window))
    }

    /** `allow`: add, or increment, or start a fresh window. */
    method Allow(ghost times: seq<int>, ghost k: nat, now: int) returns (allowed: bool)
      requires k < |times| && times[k] == now && After(times, k)
      modifies this`counter
      ensures After(times, k + 1)
      ensures allowed <==> Admits(times, window, limit, k)
    {
      if !Holds(counter, now) {
        counter := Some(Counter(1, now + window));
        return true;
      }
      var count := counter.value.count + 1;
      counter := Some(counter.value.(count := count));
      return count <= limit;
    }
  }

  // ----- Any interval of the window's length --------------------------------------------

  ghost predicate NonDecreasing(times: seq<int>) {
    forall i, j | 0 <= i < j < |times| :: times[i] <= times[j]
  }

  /** Admitted calls among the calls from i up to j. */
  function Admitted(times: seq<int>, window: nat, limit: nat, i: nat, j: nat): nat
    requires i <= j <= |times|
  {
    if i == j then 0
    else Admitted(times, window, limit, i, j - 1) + if Admits(times, window, limit, j - 1) then 1 else 0
  }

  lemma {:induction false} AdmittedSplit(times: seq<int>, window: nat, limit: nat, i: nat, m: nat, j: nat)
    requires i <= m <= j <= |times|
    ensures Admitted(times, window, limit, i, j) == Admitted(times, window, limit, i, m) + Admitted(times, window, limit, m, j)
  {
    if m < j {
      AdmittedSplit(times, window, limit, i, m, j - 1);
    }
  }

  lemma {:induction false} WindowBounds(times: seq<int>, window: nat, k: nat)
    requires k < |times| && NonDecreasing(times) && window > 0
    ensures WindowOf(times, window, k) <= times[k] < WindowOf(times, window, k) + window
  {
    if k > 0 {
      WindowBounds(times, window, k - 1);
    }
  }

  /** Within one window at most `limit` calls pass. */
  lemma {:induction false} OneWindow(times: seq<int>, window: nat, limit: nat, i: nat, j: nat)
    requires i < j <= |times| && limit >= 1 && NonDecreasing(times) && window > 0
    requires WindowOf(times, window, i) == WindowOf(times, window, j - 1)
    ensures Admitted(times, window, limit, i, j) <= limit
    ensures Admitted(times, window, limit, i, j) <= Place(times, window, j - 1)
    decreases j
  {
    if j - 1 > i {
      WindowsAscend(times, window, i, j - 2);
      WindowsAscend(times, window, j - 2, j - 1);
      OneWindow(times, window, limit, i, j - 1);
      SameWindow(times, window, j - 1);
    }
  }

  lemma {:induction false} WindowsAscend(times: seq<int>, window: nat, i: nat, j: nat)
    requires i <= j < |times| && NonDecreasing(times) && window > 0
    ensures WindowOf(times, window, i) <= WindowOf(times, window, j)
  {
    if i < j {
      WindowsAscend(times, window, i, j - 1);
      WindowBounds(times, window, j - 1);
    }
  }

  lemma SameWindow(times: seq<int>, window: nat, k: nat)
    requires 0 < k < |times| && NonDecreasing(times) && window > 0
    requires WindowOf(times, window, k) == WindowOf(times, window, k - 1)
    ensures Place(times, window, k) == Place(times, window, k - 1) + 1
  {
    WindowBounds(times, window, k);
    WindowBounds(times, window, k - 1);
  }

  /** A later window starts at least one window length after an earlier one. */
  lemma {:induction false} WindowsApart(times: seq<int>, window: nat, i: nat, j: nat)
    requires i <= j < |times| && NonDecreasing(times) && window > 0
    requires WindowOf(times, window, i) != WindowOf(times, window, j)
    ensures WindowOf(times, window, j) >= WindowOf(times, window, i) + window
    decreases j
  {
    if WindowOf(times, window, j) == WindowOf(times, window, j - 1) {
      WindowsApart(times, window, i, j - 1);
    } else {
      WindowsAscend(times, window, i, j - 1);
    }
  }

  /** The first call from i on that is not in i's window, or j. */
  ghost function WindowEnd(times: seq<int>, window: nat, i: nat, from: nat, j: nat): (m: nat)
    requires i <= from <= j <= |times| && i < |times|
    ensures from <= m <= j
    ensures forall k | from <= k < m :: WindowOf(times, window, k) == WindowOf(times, window, i)
    ensures m < j ==> WindowOf(times, window, m) != WindowOf(times, window, i)
    decreases j - from
  {
    if from < j && WindowOf(times, window, from) == WindowOf(times, window, i) then WindowEnd(times, window, i, from + 1, j) else from
  }

  /** However the calls fall, no interval of the window's length, both ends
      included, admits more than twice the limit. */
  lemma AtMostTwice(times: seq<int>, window: nat, limit: nat, i: nat, j: nat)
    requires i <= j <= |times| && limit >= 1 && NonDecreasing(times) && window > 0
    requires i < j ==> times[j - 1] <= times[i] + window
    ensures Admitted(times, window, limit, i, j) <= 2 * limit
  {
    if i < j {
      var m := WindowEnd(times, window, i, i, j);
      AdmittedSplit(times, window, limit, i, m, j);
      OneWindow(times, window, limit, i, m);
      if m < j {
        SecondIsLast(times, window, i, m, j);
        OneWindow(times, window, limit, m, j);
      }
    }
  }

  lemma SecondIsLast(times: seq<int>, window: nat, i: nat, m: nat, j: nat)
    requires i <= m < j <= |times| && NonDecreasing(times) && window > 0
    requires WindowOf(times, window, m) != WindowOf(times, window, i) && times[j - 1] <= times[i] + window
    ensures WindowOf(times, window, m) == WindowOf(times, window, j - 1)
  {
    hide WindowOf;
    if WindowOf(times, window, m) != WindowOf(times, window, j - 1) {
      WindowsApart(times, window, i, m);
      WindowsApart(times, window, m, j - 1);
      WindowBounds(times, window, i);
      WindowBounds(times, window, j - 1);
    }
  }

  /** The window that call i opens takes in the calls up to its end, numbered from one. */
  lemma {:induction false} Numbered(times: seq<int>, window: nat, i: nat, k: nat)
    requires i <= k < |times| && NonDecreasing(times) && window > 0 && times[k] < times[i] + window
    requires i == 0 || times[i] >= times[i - 1] + window
    ensures WindowOf(times, window, k) == times[i] && Place(times, window, k) == k - i + 1
  {
    if k > i {
      Numbered(times, window, i, k - 1);
    } else if i > 0 {
      WindowBounds(times, window, i - 1);
    }
  }

  /** Of the calls in a window that follows a pause of its length, exactly the
      first `limit` pass, and the first in any case. */
  lemma FirstPass(times: seq<int>, window: nat, limit: nat, i: nat, k: nat)
    requires i <= k < |times| && NonDecreasing(times) && window > 0 && times[k] < times[i] + window
    requires i == 0 || times[i] >= times[i - 1] + window
    ensures Admits(times, window, limit, k) <==> k == i || k - i < limit
  {
    Numbered(times, window, i, k);
  }

  /** The first call after a window's end opens the next one, and passes. */
  lemma NextWindow(times: seq<int>, window: nat, limit: nat, i: nat, k: nat)
    requires i < k < |times| && NonDecreasing(times) && window > 0
    requires (i == 0 || times[i] >= times[i - 1] + window) && times[k - 1] < times[i] + window <= times[k]
    ensures Admits(times, window, limit, k) && WindowOf(times, window, k) == times[k]
  {
    Numbered(times, window, i, k - 1);
  }
}
