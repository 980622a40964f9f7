/**
 The origin of a decision, and why a clone hop does not show in it
 (apps/opps/decision_lineage.py, `origin_for`, `build_lineage`).
 */
module CloneHop {
  import opened Options
  import opened Lineage
  import opened Candidates
  import opened Origins

  datatype Kind = New | Decided | Carried | Changed | Reaffirmed

  /** `tracedTo` is `from_run`/`from_workspace`, None where the source leaves them empty. */
  datatype Origin =
    | ByHuman(status: Status)
    | Traced(kind: Kind, tracedTo: Option<Key>, decidedIn: Key, previous: string, onCopy: bool)

  /** `found`, for every run of the chain. */
  ghost function FoundIn(history: seq<Entry>, chain: seq<ChainRun>): (found: seq<Option<Found>>)
    ensures |found| == |chain|
  {
    seq(|chain|, i requires 0 <= i < |chain| => FoundOf(ByRun(history, KeyOf(chain[i]))))
  }

  function FoundOf(e: Option<Entry>): Option<Found> {
    match e
    case None => None
    case Some(entry) => entry.found
  }

  predicate SameValue(f: Option<Found>, norm: string) {
    f.Some? && f.value.value.norm == norm
  }

  /** Past the leading clone hops that kept the value. */
  function SkipCopies(found: seq<Option<Found>>, chain: seq<ChainRun>, norm: string, h: nat): (r: nat)
    requires h < |chain| == |found|
    ensures h <= r < |chain|
    decreases |chain| - h
  {
    if chain[h].via.Cloned? && h + 1 < |chain| && SameValue(found[h + 1], norm) then SkipCopies(found, chain, norm, h + 1) else h
  }

  /** The oldest run of the unbroken streak of the value that starts at i. */
  function StreakEnd(found: seq<Option<Found>>, norm: string, i: nat): (r: nat)
    requires i < |found|
    ensures i <= r < |found|
    ensures forall j | i < j <= r :: SameValue(found[j], norm)
    ensures r + 1 < |found| ==> !SameValue(found[r + 1], norm)
    decreases |found| - i
  {
    if i + 1 < |found| && SameValue(found[i + 1], norm) then StreakEnd(found, norm, i + 1) else i
  }

  /** Some predecessor of the row was retired by a fork in its favour. */
  ghost predicate ForkRetired(row: Row, run: ChainRun) {
    exists id :: id in Predecessors(run.rows, row.id) && FirstRow(run.rows, id).Some? && FirstRow(run.rows, id).value.inherited
  }

  function Replaced(f: Found): string {
    if f.plain != "" then f.plain else f.value.text
  }

  ghost function OriginOf(row: Row, found: seq<Option<Found>>, chain: seq<ChainRun>): Origin
    requires 0 < |chain| == |found|
  {
    if Human(row.status) then ByHuman(row.status)
    else OriginAt(row, found, chain, SkipCopies(found, chain, EffectiveValue(row).norm, 0))
  }

  /** The origin of a value that lives in run h. */
  ghost function OriginAt(row: Row, found: seq<Option<Found>>, chain: seq<ChainRun>, h: nat): Origin
    requires h < |chain| == |found|
  {
    var norm, here := EffectiveValue(row).norm, KeyOf(chain[h]);
    if h + 1 >= |chain| || found[h + 1].None? then
      Traced(if h == 0 then New else Decided, if h == 0 then None else Some(here), here, "", false)
    else
      var parent := found[h + 1].value;
      if parent.value.norm != norm then
        Traced(Changed, Some(KeyOf(chain[h + 1])), here, Replaced(parent), chain[h].via.Cloned?)
      else
        var rewritten := parent.how != ById || ForkRetired(HeadRow(row, found, chain, h), chain[h]);
        Traced(if rewritten then Reaffirmed else Carried, Some(KeyOf(chain[StreakEnd(found, norm, h + 1)])), here, "", false)
  }

  /** The row as it stands in the run the value lives in. */
  function HeadRow(row: Row, found: seq<Option<Found>>, chain: seq<ChainRun>, h: nat): Row
    requires h < |chain| == |found|
  {
    if h == 0 then row
    else
      var own := if found[h].Some? then FirstRow(chain[h].rows, found[h].value.rowId) else None;
      if own.Some? then own.value else row
  }

  // ----- The algorithm ---------------------------------------------------------------------

  method IndexRuns(history: seq<Entry>) returns (byRun: map<Key, Entry>)
    ensures forall key :: (key in byRun <==> ByRun(history, key).Some?) && (key in byRun ==> Some(byRun[key]) == ByRun(history, key))
  {
    byRun := map[];
    for k := 0 to |history|
      invariant forall key :: (key in byRun <==> ByRun(history[..k], key).Some?)
                              && (key in byRun ==> Some(byRun[key]) == ByRun(history[..k], key))
    {
      var e := history[k];
      forall key ensures ByRun(history[..k + 1], key) == if e.inLineage && e.key == key then Some(e) else ByRun(history[..k], key) {
        assert history[..k + 1] == history[..k] + [e];
        KeepSnoc(history[..k], e, key);
      }
      hide ByRun;
      if e.inLineage {
        byRun := byRun[e.key := e];
      }
    }
    assert history[..|history|] == history;
  }

  method FindRetired(row: Row, run: ChainRun) returns (retired: bool)
    requires row.id != ""
    ensures retired == ForkRetired(row, run)
  {
    var ids := PredecessorsOf(run.rows, row.id);
    for k := 0 to |ids|
      invariant forall j | 0 <= j < k :: !(FirstRow(run.rows, ids[j]).Some? && FirstRow(run.rows, ids[j]).value.inherited)
    {
      var row := FirstRow(run.rows, ids[k]);
      if row.Some? && row.value.inherited {
        assert ids[k] in ids;
        return true;
      }
    }
    return false;
  }

  function Look(byRun: map<Key, Entry>, run: ChainRun): Option<Found> {
    if KeyOf(run) in byRun then byRun[KeyOf(run)].found else None
  }

  /** `origin_for`. */
  method FindOrigin(row: Row, history: seq<Entry>, chain: seq<ChainRun>) returns (origin: Origin)
    requires chain != [] && row.id != ""
    requires forall e | e in history && e.found.Some? :: e.found.value.rowId != ""
    ensures origin == OriginOf(row, FoundIn(history, chain), chain)
  {
    hide ForkRetired, ByRun, RetiredSuffix;
    if Human(row.status) {
      return ByHuman(row.status);
    }
    var norm := EffectiveValue(row).norm;
    var byRun := IndexRuns(history);
    var found := seq(|chain|, i requires 0 <= i < |chain| => Look(byRun, chain[i]));
    LooksUp(history, chain, byRun);
    assert found == FoundIn(history, chain);
    hide FoundIn;
    var h := 0;
    while chain[h].via.Cloned? && h + 1 < |chain|
      invariant h < |chain| && SkipCopies(found, chain, norm, h) == SkipCopies(found, chain, norm, 0)
      decreases |chain| - h
    {
      var src := Look(byRun, chain[h + 1]);
      if src.None? {
        break;
      }
      if src.value.value.norm != norm {
        return Traced(Changed, Some(KeyOf(chain[h + 1])), KeyOf(chain[h]), Replaced(src.value), true);
      }
      h := h + 1;
    }
    assert h == SkipCopies(found, chain, norm, 0);
    var unseen, here := if h == 0 then New else Decided, KeyOf(chain[h]);
    var from := if h == 0 then None else Some(here);
    if h + 1 >= |chain| {
      return Traced(unseen, from, here, "", false);
    }
    var parent := Look(byRun, chain[h + 1]);
    if parent.None? {
      return Traced(unseen, from, here, "", false);
    }
    if parent.value.value.norm != norm {
      return Traced(Changed, Some(KeyOf(chain[h + 1])), here, Replaced(parent.value), false);
    }
    var since := Streak(byRun, found, chain, norm, h + 1);
    NamedHead(row, history, chain, h);
    var head := HeadRow(row, found, chain, h);
    var retired := FindRetired(head, chain[h]);
    origin := Traced(if parent.value.how != ById || retired then Reaffirmed else Carried, Some(KeyOf(chain[since])), here, "", false);
  }

  lemma LooksUp(history: seq<Entry>, chain: seq<ChainRun>, byRun: map<Key, Entry>)
    requires forall key :: (key in byRun <==> ByRun(history, key).Some?) && (key in byRun ==> Some(byRun[key]) == ByRun(history, key))
    ensures forall i | 0 <= i < |chain| :: Look(byRun, chain[i]) == FoundIn(history, chain)[i]
  {
    hide ByRun;
  }

  method Streak(byRun: map<Key, Entry>, ghost found: seq<Option<Found>>, chain: seq<ChainRun>, norm: string, i: nat) returns (since: nat)
    requires i < |chain| == |found| && forall j | 0 <= j < |chain| :: Look(byRun, chain[j]) == found[j]
    ensures since < |chain| && since == StreakEnd(found, norm, i)
  {
    since := i;
    for j := i + 1 to |chain|
      invariant since == j - 1 && StreakEnd(found, norm, since) == StreakEnd(found, norm, i)
    {
      var e := Look(byRun, chain[j]);
      if e.None? || e.value.value.norm != norm {
        return;
      }
      since := j;
    }
  }

  lemma NamedHead(row: Row, history: seq<Entry>, chain: seq<ChainRun>, h: nat)
    requires h < |chain| && row.id != "" && forall e | e in history && e.found.Some? :: e.found.value.rowId != ""
    ensures HeadRow(row, FoundIn(history, chain), chain, h).id != ""
  {
    var key := KeyOf(chain[h]);
    if Keep(history, key) != [] {
      var own := Keep(history, key);
      KeptIn(history, key, own[|own| - 1]);
    }
  }

  // ----- Every live row of the newest run --------------------------------------------------

  ghost function OriginIn(row: Row, chain: seq<ChainRun>, others: seq<Entry>): Origin
    requires chain != []
  {
    OriginOf(row, FoundIn(History(row, chain, others), chain), chain)
  }

  lemma EntriesNamed(row: Row, chain: seq<ChainRun>, i: nat, names: Names)
    ensures forall e | e in EntriesFrom(chain, i, names) && e.found.Some? :: e.found.value.rowId != ""
    decreases |chain| - i
  {
    hide Match, NamesOf, Merged;
    if i < |chain| {
      var run := chain[i];
      var hit := if run.readable then Match(run.rows, names) else None;
      MatchNamed(run.rows, names);
      EntriesNamed(row, chain, i + 1, if hit.Some? then Merged(NamesOf(run.rows, hit.value.0.id), names) else names);
    }
  }

  lemma {:induction false} SortMembers(chain: seq<ChainRun>, s: seq<Entry>, e: Entry)
    requires e in SortBy(chain, s)
    ensures e in s
  {
    hide Le, Insert;
    if s != [] {
      var n := |s| - 1;
      SortSorted(chain, s[..n]);
      InsertSorted(chain, s[n], SortBy(chain, s[..n]));
      if e != s[n] {
        SortMembers(chain, s[..n], e);
      }
    }
  }

  /** The first live row of an id among the first n rows. */
  function FirstLive(rows: seq<Row>, n: nat, id: string): (r: Option<nat>)
    requires n <= |rows|
    ensures r.Some? ==> r.value < n && rows[r.value].id == id && rows[r.value].supersededBy == ""
    ensures forall j | 0 <= j < if r.Some? then r.value else n :: rows[j].id != id || rows[j].supersededBy != ""
  {
    if n == 0 then None
    else if FirstLive(rows, n - 1, id).Some? then FirstLive(rows, n - 1, id)
    else if rows[n - 1].id == id && rows[n - 1].supersededBy == "" then Some(n - 1)
    else None
  }

  /** Every id with a live row has the origin of the first one. */
  ghost predicate OriginsOk(rows: seq<Row>, n: nat, chain: seq<ChainRun>, origins: map<string, Origin>)
    requires chain != [] && n <= |rows|
  {
    forall id ::
      (id in origins <==> id != "" && FirstLive(rows, n, id).Some?)
      && (id in origins ==> origins[id] == OriginIn(rows[FirstLive(rows, n, id).value], chain, []))
  }

  /** `build_lineage`. */
  method BuildOrigins(chain: seq<ChainRun>) returns (origins: map<string, Origin>)
    requires chain != []
    ensures OriginsOk(chain[0].rows, |chain[0].rows|, chain, origins)
  {
    hide OriginIn, OriginsOk, FirstLive;
    var rows := chain[0].rows;
    origins := map[];
    NoOrigins(rows, chain);
    for k := 0 to |rows|
      invariant OriginsOk(rows, k, chain, origins)
    {
      var row := rows[k];
      if row.id != "" && row.supersededBy == "" && row.id !in origins {
        var origin := RowOrigin(row, chain);
        OriginAdded(rows, k, chain, origins, origin);
        origins := origins[row.id := origin];
      } else {
        OriginKept(rows, k, chain, origins);
      }
    }
  }

  lemma OriginAdded(rows: seq<Row>, k: nat, chain: seq<ChainRun>, origins: map<string, Origin>, origin: Origin)
    requires chain != [] && k < |rows| && OriginsOk(rows, k, chain, origins)
    requires rows[k].id != "" && rows[k].supersededBy == "" && rows[k].id !in origins && origin == OriginIn(rows[k], chain, [])
    ensures OriginsOk(rows, k + 1, chain, origins[rows[k].id := origin])
  {
    hide OriginIn;
    var after := origins[rows[k].id := origin];
    forall id
      ensures id in after <==> id != "" && FirstLive(rows, k + 1, id).Some?
      ensures id in after ==> after[id] == OriginIn(rows[FirstLive(rows, k + 1, id).value], chain, [])
    {
      LiveStep(rows, k, id);
      assert id in origins <==> id != "" && FirstLive(rows, k, id).Some?;
    }
  }

  lemma NoOrigins(rows: seq<Row>, chain: seq<ChainRun>)
    requires chain != []
    ensures OriginsOk(rows, 0, chain, map[])
  {
  }

  lemma LiveStep(rows: seq<Row>, k: nat, id: string)
    requires k < |rows|
    ensures FirstLive(rows, k + 1, id) ==
            if FirstLive(rows, k, id).Some? then FirstLive(rows, k, id)
            else if rows[k].id == id && rows[k].supersededBy == "" then Some(k) else None
  {
  }

  lemma OriginKept(rows: seq<Row>, k: nat, chain: seq<ChainRun>, origins: map<string, Origin>)
    requires chain != [] && k < |rows| && OriginsOk(rows, k, chain, origins)
    requires rows[k].id == "" || rows[k].supersededBy != "" || rows[k].id in origins
    ensures OriginsOk(rows, k + 1, chain, origins)
  {
    hide OriginIn;
    forall id
      ensures id in origins <==> id != "" && FirstLive(rows, k + 1, id).Some?
      ensures id in origins ==> origins[id] == OriginIn(rows[FirstLive(rows, k + 1, id).value], chain, [])
    {
      LiveStep(rows, k, id);
      assert id in origins <==> id != "" && FirstLive(rows, k, id).Some?;
    }
  }

  method RowOrigin(row: Row, chain: seq<ChainRun>) returns (origin: Origin)
    requires chain != [] && row.id != ""
    ensures origin == OriginIn(row, chain, [])
  {
    hide OriginOf, FoundIn, SortBy, NamesOf, EntriesFrom;
    var entries := WalkChain(row, chain);
    var history := SortBy(chain, entries);
    EntriesNamed(row, chain, 1, NamesOf(chain[0].rows, row.id));
    forall e | e in history && e.found.Some? ensures e.found.value.rowId != "" {
      SortMembers(chain, entries, e);
    }
    assert entries + [] == entries;
    origin := FindOrigin(row, history, chain);
  }

  // ----- A clone hop is transparent ------------------------------------------------------------

  /** What a verbatim copy of the newest run changes in an origin. */
  function Copied(o: Origin, source: Key): Origin {
    if o.Traced? && o.kind == New then o.(kind := Decided, tracedTo := Some(source)) else o
  }

  predicate UniqueIds(rows: seq<Row>) {
    forall i, j | 0 <= i < j < |rows| :: rows[i].id != rows[j].id
  }

  /** Equal names, but for repetitions, find equal entries. */
  lemma {:induction false} EntriesAlike(chain: seq<ChainRun>, copy: ChainRun, i: nat, a: Names, b: Names)
    requires Alike(a, b)
    ensures EntriesFrom([copy] + chain, i + 1, a) == EntriesFrom(chain, i, b)
    decreases |chain| - i
  {
    hide Match, NamesOf, Merged, Alike;
    if i < |chain| {
      var run := chain[i];
      assert ([copy] + chain)[i + 1] == run;
      MatchAlike(run.rows, a, b);
      var hit := if run.readable then Match(run.rows, a) else None;
      if hit.Some? {
        var own := NamesOf(run.rows, hit.value.0.id);
        MergedAlike(own, a, b);
        EntriesAlike(chain, copy, i + 1, Merged(own, a), Merged(own, b));
      } else {
        EntriesAlike(chain, copy, i + 1, a, b);
      }
    }
  }

  /** The copy of a row finds its source by id. */
  lemma FindsSource(rows: seq<Row>, row: Row, names: Names)
    requires UniqueIds(rows) && row in rows && row.id != "" && row.supersededBy == "" && names.exact == row.id
    ensures Match(rows, names) == Some((row, ById))
  {
    UniqueRow(rows, row);
    hide FirstRow;
    FirstOfSnoc(rows, [], row.id, true);
    assert [] + [row.id] == [row.id];
  }

  lemma {:induction false} UniqueRow(rows: seq<Row>, row: Row)
    requires UniqueIds(rows) && row in rows
    ensures FirstRow(rows, row.id) == Some(row)
  {
    var k :| 0 <= k < |rows| && rows[k] == row;
    if k > 0 {
      assert rows[1..][k - 1] == row;
      UniqueRow(rows[1..], row);
    }
  }

  lemma CopyEntries(row: Row, chain: seq<ChainRun>, copy: ChainRun)
    requires chain != [] && copy.rows == chain[0].rows && chain[0].readable
    requires UniqueIds(chain[0].rows) && row in chain[0].rows && row.id != "" && row.supersededBy == ""
    ensures ChainEntries(row, [copy] + chain) == [EntryOf(copy, Some((row, ById)))] + ChainEntries(row, chain)
  {
    var names, c := NamesOf(copy.rows, row.id), [copy] + chain;
    ExactApart(copy.rows, row.id);
    hide Match, NamesOf, Merged, Alike;
    FindsSource(chain[0].rows, row, names);
    MergedSelf(names);
    assert c[0] == copy && c[1] == chain[0];
    EntriesAlike(chain, copy, 1, Merged(names, names), names);
    assert EntriesFrom(c, 1, names) == [EntryOf(chain[0], Some((row, ById)))] + EntriesFrom(c, 2, Merged(names, names));
  }

  lemma ExactApart(rows: seq<Row>, id: string)
    ensures NamesOf(rows, id).exact == id && id !in NamesOf(rows, id).earlier
  {
    ExceptMembers(Predecessors(rows, id), id, id);
  }

  predicate OutsideLineage(others: seq<Entry>) {
    forall k | 0 <= k < |others| :: !others[k].inLineage
  }

  lemma {:induction false} KeepsNoOthers(others: seq<Entry>, key: Key)
    requires OutsideLineage(others)
    ensures Keep(others, key) == []
  {
    if others != [] {
      KeepsNoOthers(others[..|others| - 1], key);
    }
  }

  /** What the history shows of a run of the lineage. */
  lemma ShownIs(row: Row, chain: seq<ChainRun>, others: seq<Entry>, key: Key)
    requires chain != [] && OutsideLineage(others)
    ensures ByRun(History(row, chain, others), key) == Latest(Keep(ChainEntries(row, chain), key))
  {
    hide SortBy, Keep, Latest, ChainEntries, ByRun;
    var entries := ChainEntries(row, chain);
    ByRunIs(chain, entries + others, key);
    KeepConcat(entries, others, key);
    KeepsNoOthers(others, key);
    assert Keep(entries, key) + [] == Keep(entries, key);
  }

  lemma KeepFirst(e: Entry, rest: seq<Entry>, key: Key)
    ensures Keep([e] + rest, key) == if e.inLineage && e.key == key then [e] + Keep(rest, key) else Keep(rest, key)
  {
    hide Keep;
    KeepConcat([e], rest, key);
    KeepSnoc([], e, key);
    KeepNone(key);
    assert [] + [e] == [e];
  }

  lemma FoundShifts(row: Row, chain: seq<ChainRun>, copy: ChainRun, others: seq<Entry>, more: seq<Entry>, i: nat)
    requires chain != [] && copy.rows == chain[0].rows && chain[0].readable && i < |chain|
    requires UniqueIds(chain[0].rows) && row in chain[0].rows && row.id != "" && row.supersededBy == ""
    requires KeyOf(copy) != KeyOf(chain[i]) && OutsideLineage(others) && OutsideLineage(more)
    ensures FoundIn(History(row, [copy] + chain, more), [copy] + chain)[i + 1] == FoundIn(History(row, chain, others), chain)[i]
  {
    var c, key := [copy] + chain, KeyOf(chain[i]);
    assert c[i + 1] == chain[i];
    hide History, ChainEntries, Keep, Latest, ByRun;
    ShownIs(row, chain, others, key);
    ShownIs(row, c, more, key);
    CopyEntries(row, chain, copy);
    KeepFirst(EntryOf(copy, Some((row, ById))), ChainEntries(row, chain), key);
  }

  lemma {:induction false} NoEntryOf(chain: seq<ChainRun>, i: nat, names: Names, key: Key)
    requires forall j | i <= j < |chain| :: KeyOf(chain[j]) != key
    ensures Keep(EntriesFrom(chain, i, names), key) == []
    decreases |chain| - i
  {
    hide Match, NamesOf, Merged, Keep;
    if i < |chain| {
      var run := chain[i];
      var hit := if run.readable then Match(run.rows, names) else None;
      var rest := if hit.Some? then Merged(NamesOf(run.rows, hit.value.0.id), names) else names;
      NoEntryOf(chain, i + 1, rest, key);
      KeepFirst(EntryOf(run, hit), EntriesFrom(chain, i + 1, rest), key);
    } else {
      KeepNone(key);
    }
  }

  /** The newest run shows the row itself. */
  lemma ShowsItself(row: Row, chain: seq<ChainRun>, others: seq<Entry>)
    requires chain != [] && chain[0].inLineage && OutsideLineage(others)
    requires forall j | 0 < j < |chain| :: KeyOf(chain[j]) != KeyOf(chain[0])
    ensures FoundIn(History(row, chain, others), chain)[0] == EntryOf(chain[0], Some((row, ById))).found
  {
    var key, head := KeyOf(chain[0]), EntryOf(chain[0], Some((row, ById)));
    hide History, Keep, Latest, ByRun, EntriesFrom, NamesOf;
    ShownIs(row, chain, others, key);
    NoEntryOf(chain, 1, NamesOf(chain[0].rows, row.id), key);
    KeepFirst(head, EntriesFrom(chain, 1, NamesOf(chain[0].rows, row.id)), key);
    assert [head] + [] == [head];
    LatestStep([head]);
  }

  lemma {:induction false} SkipShift(found: seq<Option<Found>>, found': seq<Option<Found>>, chain: seq<ChainRun>, copy: ChainRun,
                                     norm: string, h: nat)
    requires h < |chain| == |found| && |found'| == |found| + 1 && forall i | 0 <= i < |found| :: found'[i + 1] == found[i]
    ensures SkipCopies(found', [copy] + chain, norm, h + 1) == SkipCopies(found, chain, norm, h) + 1
    decreases |chain| - h
  {
    hide SameValue;
    assert forall i | 0 <= i < |chain| :: ([copy] + chain)[i + 1] == chain[i];
    if chain[h].via.Cloned? && h + 1 < |chain| && SameValue(found[h + 1], norm) {
      SkipShift(found, found', chain, copy, norm, h + 1);
    }
  }

  lemma {:induction false} StreakShift(found: seq<Option<Found>>, found': seq<Option<Found>>, norm: string, i: nat)
    requires i < |found| && |found'| == |found| + 1 && forall i | 0 <= i < |found| :: found'[i + 1] == found[i]
    ensures StreakEnd(found', norm, i + 1) == StreakEnd(found, norm, i) + 1
    decreases |found| - i
  {
    hide SameValue;
    if i + 1 < |found| && SameValue(found[i + 1], norm) {
      StreakShift(found, found', norm, i + 1);
    }
  }

  lemma HeadShift(row: Row, found: seq<Option<Found>>, found': seq<Option<Found>>, chain: seq<ChainRun>, copy: ChainRun, h: nat)
    requires h < |chain| == |found| && |found'| == |found| + 1 && forall i | 0 <= i < |found| :: found'[i + 1] == found[i]
    requires found[0].Some? && found[0].value.rowId == row.id && UniqueIds(chain[0].rows) && row in chain[0].rows
    ensures HeadRow(row, found', [copy] + chain, h + 1) == HeadRow(row, found, chain, h)
  {
    hide FirstRow, UniqueIds;
    assert ([copy] + chain)[h + 1] == chain[h];
    UniqueRow(chain[0].rows, row);
  }

  lemma OriginShift(row: Row, found: seq<Option<Found>>, found': seq<Option<Found>>, chain: seq<ChainRun>, copy: ChainRun)
    requires 0 < |chain| == |found| && |found'| == |found| + 1 && forall i | 0 <= i < |found| :: found'[i + 1] == found[i]
    requires found[0].Some? && found[0].value.rowId == row.id && found[0].value.value == EffectiveValue(row)
    requires copy.via.Cloned? && UniqueIds(chain[0].rows) && row in chain[0].rows
    ensures OriginOf(row, found', [copy] + chain) == Copied(OriginOf(row, found, chain), KeyOf(chain[0]))
  {
    hide OriginAt, UniqueIds;
    var norm := EffectiveValue(row).norm;
    CopySkipped(found, found', chain, copy, norm);
    hide SkipCopies;
    AtShift(row, found, found', chain, copy, SkipCopies(found, chain, norm, 0));
  }

  lemma CopySkipped(found: seq<Option<Found>>, found': seq<Option<Found>>, chain: seq<ChainRun>, copy: ChainRun, norm: string)
    requires 0 < |chain| == |found| && |found'| == |found| + 1 && forall i | 0 <= i < |found| :: found'[i + 1] == found[i]
    requires SameValue(found[0], norm) && copy.via.Cloned?
    ensures SkipCopies(found', [copy] + chain, norm, 0) == SkipCopies(found, chain, norm, 0) + 1
  {
    var c := [copy] + chain;
    assert SkipCopies(found', c, norm, 0) == SkipCopies(found', c, norm, 1) by {
      assert found'[1] == found[0] && c[0] == copy;
    }
    hide SkipCopies;
    SkipShift(found, found', chain, copy, norm, 0);
  }

  lemma AtShift(row: Row, found: seq<Option<Found>>, found': seq<Option<Found>>, chain: seq<ChainRun>, copy: ChainRun, h: nat)
    requires h < |chain| == |found| && |found'| == |found| + 1 && forall i | 0 <= i < |found| :: found'[i + 1] == found[i]
    requires found[0].Some? && found[0].value.rowId == row.id && UniqueIds(chain[0].rows) && row in chain[0].rows
    ensures OriginAt(row, found', [copy] + chain, h + 1) == Copied(OriginAt(row, found, chain, h), KeyOf(chain[0]))
  {
    hide StreakEnd, HeadRow, ForkRetired, UniqueIds, EffectiveValue, Replaced, KeyOf;
    HeadShift(row, found, found', chain, copy, h);
    Shifted(chain, copy, h);
    if h + 1 < |chain| {
      var norm := EffectiveValue(row).norm;
      StreakShift(found, found', norm, h + 1);
      Shifted(chain, copy, h + 1);
      Shifted(chain, copy, StreakEnd(found, norm, h + 1));
    }
    hide HeadRow;
  }

  lemma Shifted(chain: seq<ChainRun>, copy: ChainRun, i: nat)
    requires i < |chain|
    ensures ([copy] + chain)[i + 1] == chain[i]
  {
  }

  /** Putting a verbatim copy of the newest run in front of the chain leaves
      every live row's origin as it was, except that what was new in the run
      is now decided in it. */
  lemma CloneIsTransparent(row: Row, chain: seq<ChainRun>, copy: ChainRun, others: seq<Entry>, more: seq<Entry>)
    requires chain != [] && chain[0].readable && chain[0].inLineage
    requires forall j | 0 < j < |chain| :: KeyOf(chain[j]) != KeyOf(chain[0])
    requires copy.via.Cloned? && copy.rows == chain[0].rows && forall j | 0 <= j < |chain| :: KeyOf(copy) != KeyOf(chain[j])
    requires UniqueIds(chain[0].rows) && row in chain[0].rows && row.id != "" && row.supersededBy == ""
    requires OutsideLineage(others) && OutsideLineage(more)
    ensures OriginIn(row, [copy] + chain, more) == Copied(OriginIn(row, chain, others), KeyOf(chain[0]))
  {
    var c := [copy] + chain;
    var found, found' := FoundIn(History(row, chain, others), chain), FoundIn(History(row, c, more), c);
    hide History, FoundIn, OriginOf, UniqueIds;
    forall i | 0 <= i < |found| ensures found'[i + 1] == found[i] {
      FoundShifts(row, chain, copy, others, more, i);
    }
    ShowsItself(row, chain, others);
    OriginShift(row, found, found', chain, copy);
  }
}
