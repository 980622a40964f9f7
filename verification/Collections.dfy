/** Lists and sets, as more than one module needs them. */
module Collections {
  /** Python's `list.pop(p)`. */
  function Pop<T>(s: seq<T>, p: nat): (rest: seq<T>)
    requires p < |s|
    ensures |rest| == |s| - 1
    ensures forall q | 0 <= q < p :: rest[q] == s[q]
    ensures forall q | p <= q < |rest| :: rest[q] == s[q + 1]
  {
    s[..p] + s[p + 1..]
  }

  lemma {:induction false} SubsetSize<T>(a: set<T>, b: set<T>)
    requires a <= b
    ensures |a| <= |b|
  {
    if a != {} {
      var x :| x in a;
      SubsetSize(a - {x}, b - {x});
    }
  }
}
