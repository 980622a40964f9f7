/**
 Matching one decision across the logs of a chain of runs
 (apps/opps/decision_lineage.py): the earlier names a log knows for an id, and
 the row of another log that is the same decision.
 */
module Lineage {
  import opened Options
  import Walks

  // ----- Data ---------------------------------------------------------------------

  datatype Status = AiDefault | Overridden | HumanDecided | OtherStatus

  predicate Human(s: Status) {
    s.Overridden? || s.HumanDecided?
  }

  /** A value as written, and its normal form, the one comparisons use. */
  datatype Value = Value(text: string, norm: string)

  datatype Row = Row(id: string, supersededBy: string, status: Status, override: Option<Value>, ai: Value,
                     plain: string, inherited: bool)

  /** A person's answer when one is in force, else the AI default. */
  function EffectiveValue(row: Row): Value {
    if row.override.Some? && Human(row.status) then row.override.value else row.ai
  }

  // ----- Lists without repetitions ---------------------------------------------------

  /** `list(dict.fromkeys(s))`: each element where it first occurs. */
  function Dedupe(s: seq<string>): seq<string> {
    if s == [] then []
    else
      var n := |s| - 1;
      Dedupe(s[..n]) + if s[n] in s[..n] then [] else [s[n]]
  }

  lemma DedupeSnoc(s: seq<string>, x: string)
    ensures Dedupe(s + [x]) == if x in s then Dedupe(s) else Dedupe(s) + [x]
  {
    assert (s + [x])[..|s|] == s;
  }

  lemma {:induction false} DedupeMembers(s: seq<string>, x: string)
    ensures x in Dedupe(s) <==> x in s
  {
    if s != [] {
      var n := |s| - 1;
      assert s == s[..n] + [s[n]];
      DedupeMembers(s[..n], x);
    }
  }

  lemma {:induction false} DedupeKnown(a: seq<string>, b: seq<string>)
    requires forall x | x in b :: x in a
    ensures Dedupe(a + b) == Dedupe(a)
  {
    if b == [] {
      assert a + b == a;
    } else {
      var n := |b| - 1;
      assert b[n] in b && forall x | x in b[..n] :: x in b;
      DedupeKnown(a, b[..n]);
      DedupeSnoc(a + b[..n], b[n]);
      assert a + b == a + b[..n] + [b[n]];
    }
  }

  lemma DedupeNone()
    ensures Dedupe([]) == []
  {
  }

  lemma {:induction false} DedupeTail(a: seq<string>, b: seq<string>)
    ensures Dedupe(a + Dedupe(b)) == Dedupe(a + b)
  {
    hide Dedupe;
    if b == [] {
      DedupeNone();
      assert Dedupe(b) == b;
    } else {
      var n := |b| - 1;
      var init, x := b[..n], b[n];
      DedupeTail(a, init);
      assert b == init + [x] && a + b == a + init + [x];
      DedupeSnoc(init, x);
      DedupeSnoc(a + init, x);
      DedupeMembers(init, x);
      if x !in init {
        assert a + Dedupe(b) == a + Dedupe(init) + [x];
        DedupeSnoc(a + Dedupe(init), x);
      }
    }
  }

  lemma DedupeTwice(s: seq<string>)
    ensures Dedupe(Dedupe(s)) == Dedupe(s)
  {
    DedupeTail([], s);
    assert [] + Dedupe(s) == Dedupe(s) && [] + s == s;
  }

  /** The elements other than x, in order. */
  function Except(s: seq<string>, x: string): seq<string> {
    if s == [] then []
    else
      var n := |s| - 1;
      Except(s[..n], x) + if s[n] == x then [] else [s[n]]
  }

  lemma ExceptSnoc(s: seq<string>, y: string, x: string)
    ensures Except(s + [y], x) == if y == x then Except(s, x) else Except(s, x) + [y]
  {
    assert (s + [y])[..|s|] == s;
  }

  lemma {:induction false} ExceptMembers(s: seq<string>, x: string, y: string)
    ensures y in Except(s, x) <==> y in s && y != x
  {
    if s != [] {
      var n := |s| - 1;
      assert s == s[..n] + [s[n]];
      ExceptMembers(s[..n], x, y);
    }
  }

  lemma {:induction false} ExceptDedupe(s: seq<string>, x: string)
    ensures Except(Dedupe(s), x) == Dedupe(Except(s, x))
  {
    if s != [] {
      var n := |s| - 1;
      var init, y := s[..n], s[n];
      assert s == init + [y];
      ExceptDedupe(init, x);
      DedupeSnoc(init, y);
      ExceptSnoc(init, y, x);
      ExceptMembers(init, x, y);
      if y !in init {
        ExceptSnoc(Dedupe(init), y, x);
      }
      if y != x {
        DedupeSnoc(Except(init, x), y);
      }
    }
  }

  // ----- Earlier names inside one log ---------------------------------------------------

  /** The successor of each id; the last row of an id decides. */
  function Successors(rows: seq<Row>): (g: Walks.Graph)
    ensures "" !in g
  {
    if rows == [] then map[]
    else
      var last := rows[|rows| - 1];
      var g := Successors(rows[..|rows| - 1]);
      if last.id == "" then g else g[last.id := last.supersededBy]
  }

  function RowIds(rows: seq<Row>): (ids: seq<string>)
    ensures |ids| == |rows|
  {
    seq(|rows|, i requires 0 <= i < |rows| => rows[i].id)
  }

  /** The keys of that dictionary, in insertion order. */
  function NamedIds(rows: seq<Row>): seq<string> {
    Except(Dedupe(RowIds(rows)), "")
  }

  /** Some steps of `superseded_by` lead from one id to the other. */
  ghost predicate Leads(g: Walks.Graph, from: string, target: string) {
    exists n: nat :: n > 0 && Walks.Iter(g, from, n) == target
  }

  /** One walk of `_predecessors`: stops at the target, at the end, or on a cycle. */
  method LeadsTo(g: Walks.Graph, from: string, target: string) returns (leads: bool)
    requires "" !in g && target != "" && from != ""
    ensures leads <==> Leads(g, from, target)
  {
    var seen: set<string>, cur := {}, from;
    ghost var all := g.Keys + g.Values + {from};
    ghost var n: nat := 0;
    while cur != "" && cur !in seen
      invariant cur == Walks.Iter(g, from, n) && (cur == "" || cur in all) && seen <= all
      invariant n == 0 ==> cur == from && seen == {}
      invariant n > 0 ==> from in seen
      invariant forall c | c in seen :: Walks.Next(g, c) != target && (Walks.Next(g, c) == cur || Walks.Next(g, c) in seen)
      decreases all - seen
    {
      seen := seen + {cur};
      var next := Walks.Next(g, cur);
      assert Walks.Iter(g, from, n + 1) == next;
      if next == target {
        return true;
      }
      n := n + 1;
      cur := next;
    }
    NoWay(g, seen, from, target);
    return false;
  }

  /** A walk that ended has seen every id the chain ever visits. */
  lemma NoWay(g: Walks.Graph, seen: set<string>, from: string, target: string)
    requires "" !in g && target != "" && from in seen && Walks.Closed(g, seen)
    requires forall c | c in seen :: Walks.Next(g, c) != target
    ensures !Leads(g, from, target)
  {
    forall n: nat | n > 0 ensures Walks.Iter(g, from, n) != target {
      Walks.NeverLeaves(g, seen, from, n - 1);
    }
  }

  ghost function Leading(g: Walks.Graph, ids: seq<string>, target: string): seq<string> {
    if ids == [] then []
    else
      var n := |ids| - 1;
      Leading(g, ids[..n], target) + if Leads(g, ids[n], target) then [ids[n]] else []
  }

  /** The ids, in log order, from which `superseded_by` leads to the target. */
  ghost function Predecessors(rows: seq<Row>, target: string): seq<string> {
    Leading(Successors(rows), NamedIds(rows), target)
  }

  /** `_predecessors`, on any log, cyclic ones included. */
  method PredecessorsOf(rows: seq<Row>, target: string) returns (ids: seq<string>)
    requires target != ""
    ensures ids == Predecessors(rows, target)
  {
    var g, named := Successors(rows), NamedIds(rows);
    ids := [];
    for k := 0 to |named|
      invariant ids == Leading(g, named[..k], target)
    {
      NamedNonEmpty(rows, k);
      var leads := LeadsTo(g, named[k], target);
      assert named[..k + 1][..k] == named[..k];
      if leads {
        ids := ids + [named[k]];
      }
    }
    assert named[..|named|] == named;
  }

  lemma NamedNonEmpty(rows: seq<Row>, k: nat)
    requires k < |NamedIds(rows)|
    ensures NamedIds(rows)[k] != ""
  {
    ExceptMembers(Dedupe(RowIds(rows)), "", NamedIds(rows)[k]);
  }

  /** The result is exactly the set of ids of the log that lead to the target. */
  lemma PredecessorsAre(rows: seq<Row>, target: string, id: string)
    ensures id in Predecessors(rows, target) <==>
            id != "" && (exists i :: 0 <= i < |rows| && rows[i].id == id) && Leads(Successors(rows), id, target)
  {
    LeadingMembers(Successors(rows), NamedIds(rows), target, id);
    ExceptMembers(Dedupe(RowIds(rows)), "", id);
    DedupeMembers(RowIds(rows), id);
    if id in RowIds(rows) {
      var i :| 0 <= i < |rows| && RowIds(rows)[i] == id;
      assert rows[i].id == id;
    }
    if i :| 0 <= i < |rows| && rows[i].id == id {
      assert RowIds(rows)[i] == id;
    }
  }

  lemma {:induction false} LeadingMembers(g: Walks.Graph, ids: seq<string>, target: string, id: string)
    ensures id in Leading(g, ids, target) <==> id in ids && Leads(g, id, target)
  {
    if ids != [] {
      var n := |ids| - 1;
      assert ids == ids[..n] + [ids[n]];
      LeadingMembers(g, ids[..n], target, id);
    }
  }
}
