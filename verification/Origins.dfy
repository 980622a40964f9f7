/**
 Where a decision's value comes from (apps/opps/decision_lineage.py,
 `history_for` and `origin_for`).
 */
module Origins {
  import opened Options
  import opened Lineage
  import opened Candidates

  /** How a run was made from the next, older one. */
  datatype Via = Forked | Seeded | Cloned | Oldest

  /** Run ids and dates are represented by their place in string order. */
  datatype ChainRun = ChainRun(workspace: string, runId: int, via: Via, date: int, rows: seq<Row>,
                               readable: bool, inLineage: bool)

  datatype Key = Key(workspace: string, runId: int)

  function KeyOf(run: ChainRun): Key {
    Key(run.workspace, run.runId)
  }

  /** What a run's log says of the decision. */
  datatype Found = Found(rowId: string, how: How, value: Value, plain: string)

  datatype Entry = Entry(key: Key, date: int, inLineage: bool, found: Option<Found>)

  function EntryOf(run: ChainRun, hit: Option<(Row, How)>): Entry {
    Entry(KeyOf(run), run.date, run.inLineage,
          match hit
          case None => None
          case Some((row, how)) =>
            Some(Found(row.id, how, EffectiveValue(row), if Human(row.status) then "" else row.plain)))
  }

  // ----- The walk down the chain ----------------------------------------------------

  /** The entries of the runs from position i on, newest first, when `names`
      are the candidate names carried down to there. */
  ghost function EntriesFrom(chain: seq<ChainRun>, i: nat, names: Names): seq<Entry>
    decreases |chain| - i
  {
    if i >= |chain| then []
    else
      var run := chain[i];
      var hit := if run.readable then Match(run.rows, names) else None;
      [EntryOf(run, hit)]
      + EntriesFrom(chain, i + 1, if hit.Some? then Merged(NamesOf(run.rows, hit.value.0.id), names) else names)
  }

  ghost function ChainEntries(row: Row, chain: seq<ChainRun>): seq<Entry>
    requires chain != []
  {
    [EntryOf(chain[0], Some((row, ById)))] + EntriesFrom(chain, 1, NamesOf(chain[0].rows, row.id))
  }

  method NamesFor(rows: seq<Row>, id: string) returns (names: Names)
    requires id != ""
    ensures names == NamesOf(rows, id)
  {
    var ids := PredecessorsOf(rows, id);
    var earlier := Except(ids, id);
    names := Names(id, earlier, RetiredNames([id] + earlier));
  }

  lemma MatchNamed(rows: seq<Row>, names: Names)
    ensures Match(rows, names).Some? ==> Match(rows, names).value.0.id != "" && Match(rows, names).value.0 in rows
  {
    hide FirstOf;
    FirstNamed(rows, [names.exact]);
    FirstNamed(rows, names.earlier);
    FirstNamed(rows, names.retired);
  }

  lemma FirstNamed(rows: seq<Row>, ids: seq<string>)
    ensures First(rows, ids).Some? ==> First(rows, ids).value.id != "" && First(rows, ids).value in rows
  {
    hide FirstOf;
    FirstOfNamed(rows, ids, true);
    FirstOfNamed(rows, ids, false);
  }

  lemma {:induction false} FirstOfNamed(rows: seq<Row>, ids: seq<string>, live: bool)
    ensures FirstOf(rows, ids, live).Some? ==>
              FirstOf(rows, ids, live).value.id != "" && FirstOf(rows, ids, live).value in rows
  {
    if ids != [] {
      FirstOfNamed(rows, ids[..|ids| - 1], live);
    }
  }

  method WalkChain(row: Row, chain: seq<ChainRun>) returns (entries: seq<Entry>)
    requires chain != [] && row.id != ""
    ensures entries == ChainEntries(row, chain)
  {
    hide Match, NamesOf, Merged;
    var names := NamesFor(chain[0].rows, row.id);
    entries := [EntryOf(chain[0], Some((row, ById)))];
    for i := 1 to |chain|
      invariant entries + EntriesFrom(chain, i, names) == ChainEntries(row, chain)
    {
      var run := chain[i];
      ghost var before := names;
      var hit: Option<(Row, How)> := None;
      if run.readable {
        hit := Match(run.rows, names);
        if hit.Some? {
          MatchNamed(run.rows, names);
          var own := NamesFor(run.rows, hit.value.0.id);
          names := Merged(own, names);
        }
      }
      assert entries + EntriesFrom(chain, i, before) == entries + [EntryOf(run, hit)] + EntriesFrom(chain, i + 1, names);
      entries := entries + [EntryOf(run, hit)];
    }
  }

  // ----- Sorting, and the entry of one run ---------------------------------------------

  /** `rank`: the older the run, the smaller; 0 outside the chain. */
  function RankOf(chain: seq<ChainRun>, key: Key): int {
    if chain == [] then 0
    else if chain[0].workspace == key.workspace && chain[0].runId == key.runId && RankOf(chain[1..], key) == 0 then |chain|
    else RankOf(chain[1..], key)
  }

  /** Entries sort by date, then run id, then rank. */
  predicate Le(chain: seq<ChainRun>, a: Entry, b: Entry) {
    a.date < b.date
    || (a.date == b.date
        && (a.key.runId < b.key.runId || (a.key.runId == b.key.runId && RankOf(chain, a.key) <= RankOf(chain, b.key))))
  }

  /** A stable sort. */
  function Insert(chain: seq<ChainRun>, x: Entry, s: seq<Entry>): (r: seq<Entry>)
    ensures r != []
  {
    if s == [] then [x]
    else
      var n := |s| - 1;
      if Le(chain, s[n], x) then s + [x] else Insert(chain, x, s[..n]) + [s[n]]
  }

  function SortBy(chain: seq<ChainRun>, s: seq<Entry>): seq<Entry> {
    if s == [] then [] else Insert(chain, s[|s| - 1], SortBy(chain, s[..|s| - 1]))
  }

  /** The history shown for a decision; `others` are entries of runs outside the lineage. */
  ghost function History(row: Row, chain: seq<ChainRun>, others: seq<Entry>): seq<Entry>
    requires chain != []
  {
    SortBy(chain, ChainEntries(row, chain) + others)
  }

  /** The lineage entries of one run, in order. */
  function Keep(s: seq<Entry>, key: Key): seq<Entry> {
    if s == [] then []
    else
      var n := |s| - 1;
      Keep(s[..n], key) + if s[n].inLineage && s[n].key == key then [s[n]] else []
  }

  lemma KeepSnoc(s: seq<Entry>, e: Entry, key: Key)
    ensures Keep(s + [e], key) == if e.inLineage && e.key == key then Keep(s, key) + [e] else Keep(s, key)
  {
    assert (s + [e])[..|s|] == s;
  }

  lemma {:induction false} KeepConcat(a: seq<Entry>, b: seq<Entry>, key: Key)
    ensures Keep(a + b, key) == Keep(a, key) + Keep(b, key)
  {
    hide *;
    if b == [] {
      assert a + b == a;
      KeepNone(key);
    } else {
      var n := |b| - 1;
      KeepConcat(a, b[..n], key);
      KeepSnoc(a + b[..n], b[n], key);
      KeepSnoc(b[..n], b[n], key);
      assert b == b[..n] + [b[n]] && a + b == a + b[..n] + [b[n]];
    }
  }

  lemma KeepNone(key: Key)
    ensures Keep([], key) == []
  {
  }

  /** `by_run[key]`: a later entry of the same run replaces an earlier one. */
  function ByRun(history: seq<Entry>, key: Key): Option<Entry> {
    var own := Keep(history, key);
    if own == [] then None else Some(own[|own| - 1])
  }

  /** Of the entries of one run, the last of those with the latest date. */
  function Latest(s: seq<Entry>): Option<Entry> {
    if s == [] then None
    else
      var n := |s| - 1;
      var before := Latest(s[..n]);
      if before.Some? && before.value.date > s[n].date then before else Some(s[n])
  }

  ghost predicate Sorted(chain: seq<ChainRun>, s: seq<Entry>) {
    forall i, j | 0 <= i < j < |s| :: Le(chain, s[i], s[j])
  }

  lemma LeOrder(chain: seq<ChainRun>, a: Entry, b: Entry, c: Entry)
    ensures Le(chain, a, b) || Le(chain, b, a)
    ensures Le(chain, a, b) && Le(chain, b, c) ==> Le(chain, a, c)
  {
    hide RankOf;
  }

  lemma {:induction false} InsertSorted(chain: seq<ChainRun>, x: Entry, s: seq<Entry>)
    requires Sorted(chain, s)
    ensures Sorted(chain, Insert(chain, x, s))
    ensures forall e | e in Insert(chain, x, s) :: e == x || e in s
  {
    hide Le;
    if s != [] {
      var n := |s| - 1;
      LeOrder(chain, s[n], x, x);
      if Le(chain, s[n], x) {
        forall i | 0 <= i < |s| ensures Le(chain, s[i], x) {
          LeOrder(chain, s[i], s[n], x);
        }
      } else {
        InsertSorted(chain, x, s[..n]);
        var before := Insert(chain, x, s[..n]);
        forall i | 0 <= i < |before| ensures Le(chain, before[i], s[n]) {
          assert before[i] in before;
        }
      }
    }
  }

  lemma {:induction false} SortSorted(chain: seq<ChainRun>, s: seq<Entry>)
    ensures Sorted(chain, SortBy(chain, s))
  {
    if s != [] {
      SortSorted(chain, s[..|s| - 1]);
      InsertSorted(chain, s[|s| - 1], SortBy(chain, s[..|s| - 1]));
    }
  }

  /** Only entries of the same run matter to where an entry of it lands among them. */
  lemma {:induction false} KeepInsert(chain: seq<ChainRun>, x: Entry, s: seq<Entry>, key: Key)
    requires Sorted(chain, s)
    ensures Keep(Insert(chain, x, s), key) ==
            if x.inLineage && x.key == key then Insert(chain, x, Keep(s, key)) else Keep(s, key)
  {
    hide *;
    InsertStep(chain, x, s);
    if s == [] {
      KeepNone(key);
      KeepSnoc([], x, key);
      InsertStep(chain, x, []);
      assert [] + [x] == [x];
    } else {
      var n := |s| - 1;
      assert s == s[..n] + [s[n]];
      KeepSnoc(s[..n], s[n], key);
      if Le(chain, s[n], x) {
        KeepSnoc(s, x, key);
        LastKept(chain, s, x, key);
      } else {
        SortedPrefix(chain, s);
        KeepInsert(chain, x, s[..n], key);
        KeepSnoc(Insert(chain, x, s[..n]), s[n], key);
        InsertBefore(chain, x, Keep(s[..n], key), s[n]);
      }
    }
  }

  lemma SortedPrefix(chain: seq<ChainRun>, s: seq<Entry>)
    requires Sorted(chain, s) && s != []
    ensures Sorted(chain, s[..|s| - 1])
  {
    hide Le;
  }

  lemma InsertStep(chain: seq<ChainRun>, x: Entry, s: seq<Entry>)
    ensures s == [] ==> Insert(chain, x, s) == [x]
    ensures s != [] ==> Insert(chain, x, s) == if Le(chain, s[|s| - 1], x) then s + [x]
                                               else Insert(chain, x, s[..|s| - 1]) + [s[|s| - 1]]
  {
    hide Le;
  }

  lemma InsertBefore(chain: seq<ChainRun>, x: Entry, s: seq<Entry>, last: Entry)
    requires !Le(chain, last, x)
    ensures Insert(chain, x, s + [last]) == Insert(chain, x, s) + [last]
  {
    hide Le;
    assert (s + [last])[..|s|] == s;
  }

  lemma LastKept(chain: seq<ChainRun>, s: seq<Entry>, x: Entry, key: Key)
    requires Sorted(chain, s) && s != [] && Le(chain, s[|s| - 1], x)
    ensures Insert(chain, x, Keep(s, key)) == Keep(s, key) + [x]
  {
    hide Le, Keep;
    var own := Keep(s, key);
    if own != [] {
      var last := own[|own| - 1];
      KeptIn(s, key, last);
      var i :| 0 <= i < |s| && s[i] == last;
      LeOrder(chain, s[i], s[|s| - 1], x);
      assert Le(chain, own[|own| - 1], x);
    } else {
      assert own + [x] == [x];
    }
  }

  lemma {:induction false} KeptIn(s: seq<Entry>, key: Key, e: Entry)
    requires e in Keep(s, key)
    ensures e in s && e.inLineage && e.key == key
  {
    var n := |s| - 1;
    if e in Keep(s[..n], key) {
      KeptIn(s[..n], key, e);
    }
  }

  lemma {:induction false} KeepSort(chain: seq<ChainRun>, s: seq<Entry>, key: Key)
    ensures Keep(SortBy(chain, s), key) == SortBy(chain, Keep(s, key))
  {
    hide *;
    SortStep(chain, s);
    if s == [] {
      KeepNone(key);
      SortStep(chain, []);
    } else {
      var n := |s| - 1;
      var init, x := s[..n], s[n];
      KeepSort(chain, init, key);
      SortSorted(chain, init);
      KeepInsert(chain, x, SortBy(chain, init), key);
      assert s == init + [x];
      KeepSnoc(init, x, key);
      SortStep(chain, Keep(init, key) + [x]);
      assert (Keep(init, key) + [x])[..|Keep(init, key)|] == Keep(init, key);
    }
  }

  lemma {:induction false} SortSame(chain: seq<ChainRun>, s: seq<Entry>, key: Key)
    requires forall e | e in s :: e.key == key
    ensures SortBy(chain, s) != [] <==> s != []
    ensures s != [] ==> SortBy(chain, s) != [] && Latest(s) == Some(SortBy(chain, s)[|SortBy(chain, s)| - 1])
    ensures forall e | e in SortBy(chain, s) :: e in s
  {
    hide *;
    SortStep(chain, s);
    if s != [] {
      var n := |s| - 1;
      assert s == s[..n] + [s[n]] && s[n] in s;
      SortSame(chain, s[..n], key);
      var before := SortBy(chain, s[..n]);
      SortSorted(chain, s[..n]);
      InsertSorted(chain, s[n], before);
      InsertStep(chain, s[n], before);
      LatestStep(s);
      if before != [] {
        assert before[|before| - 1] in s[..n];
        LeSame(chain, before[|before| - 1], s[n]);
      }
    }
  }

  lemma SortStep(chain: seq<ChainRun>, s: seq<Entry>)
    ensures s == [] ==> SortBy(chain, s) == []
    ensures s != [] ==> SortBy(chain, s) == Insert(chain, s[|s| - 1], SortBy(chain, s[..|s| - 1]))
  {
    hide Insert;
  }

  lemma LatestStep(s: seq<Entry>)
    requires s != []
    ensures var before, x := Latest(s[..|s| - 1]), s[|s| - 1];
            Latest(s) == if before.Some? && before.value.date > x.date then before else Some(x)
    ensures |s| == 1 ==> Latest(s) == Some(s[0])
  {
  }

  lemma LeSame(chain: seq<ChainRun>, a: Entry, b: Entry)
    requires a.key == b.key
    ensures Le(chain, a, b) <==> a.date <= b.date
  {
    hide RankOf;
  }

  /** Whatever the rest of the history, the entry of a run is its latest one. */
  lemma ByRunIs(chain: seq<ChainRun>, s: seq<Entry>, key: Key)
    ensures ByRun(SortBy(chain, s), key) == Latest(Keep(s, key))
  {
    hide SortBy, Keep, Latest;
    KeepSort(chain, s, key);
    forall e | e in Keep(s, key) ensures e.key == key {
      KeptIn(s, key, e);
    }
    SortSame(chain, Keep(s, key), key);
    LatestNone();
  }

  lemma LatestNone()
    ensures Latest([]) == None
  {
  }
}
