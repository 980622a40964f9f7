/**
 What a decision's origin is, without naming the rules: the row another log
 finds for it, and the kind that one hop of the chain gives it
 (apps/opps/decision_lineage.py, `_match` and `origin_for`).
 */
module OriginLaws {
  import opened Options
  import opened Lineage
  import opened Candidates
  import opened Origins
  import opened CloneHop

  // ----- The row a log finds ------------------------------------------------------------

  /** The log has a row of this id. */
  predicate Has(rows: seq<Row>, id: string) {
    exists k :: 0 <= k < |rows| && rows[k].id == id
  }

  lemma {:induction false} FirstRowHas(rows: seq<Row>, id: string)
    ensures FirstRow(rows, id).Some? <==> Has(rows, id)
  {
    if rows != [] {
      FirstRowHas(rows[1..], id);
      if k :| 0 <= k < |rows| && rows[k].id == id {
        assert k > 0 ==> rows[1..][k - 1].id == id;
      }
    }
  }

  /** The id itself decides, live or superseded. */
  lemma MatchById(rows: seq<Row>, names: Names, row: Row)
    requires UniqueIds(rows) && row in rows && row.id == names.exact != ""
    ensures Match(rows, names) == Some((row, ById))
  {
    UniqueRow(rows, row);
    hide FirstRow;
    FirstOfSnoc(rows, [], names.exact, true);
    FirstOfSnoc(rows, [], names.exact, false);
    assert [] + [names.exact] == [names.exact];
  }

  /** No row of this name is live. */
  predicate NotLive(rows: seq<Row>, id: string) {
    id == "" || forall r | r in rows && r.id == id :: r.supersededBy != ""
  }

  /** Without it, a live row of an earlier name; the first name with one wins, whatever superseded rows come before. */
  lemma MatchByEarlier(rows: seq<Row>, names: Names, k: nat, row: Row)
    requires UniqueIds(rows) && row in rows && !Has(rows, names.exact) && row.supersededBy == ""
    requires k < |names.earlier| && names.earlier[k] == row.id != ""
    requires forall j | 0 <= j < k :: NotLive(rows, names.earlier[j])
    ensures Match(rows, names) == Some((row, ByEarlierId))
  {
    NotFound(rows, [names.exact]);
    FirstLiveOf(rows, names.earlier, k, row, |names.earlier|);
    assert names.earlier[..|names.earlier|] == names.earlier;
  }

  /** Without either, a live row under a name that a fork retired it from. */
  lemma MatchByRetired(rows: seq<Row>, names: Names, k: nat, row: Row)
    requires UniqueIds(rows) && row in rows && !Has(rows, names.exact) && row.supersededBy == ""
    requires forall j | 0 <= j < |names.earlier| :: names.earlier[j] == "" || !Has(rows, names.earlier[j])
    requires k < |names.retired| && names.retired[k] == row.id != ""
    requires forall j | 0 <= j < k :: NotLive(rows, names.retired[j])
    ensures Match(rows, names) == Some((row, ByRetiredId))
  {
    NotFound(rows, [names.exact]);
    NotFound(rows, names.earlier);
    FirstLiveOf(rows, names.retired, k, row, |names.retired|);
    assert names.retired[..|names.retired|] == names.retired;
  }

  /** Only if no earlier name has a live row, the first superseded one. */
  lemma MatchSuperseded(rows: seq<Row>, names: Names, k: nat, row: Row)
    requires UniqueIds(rows) && row in rows && !Has(rows, names.exact)
    requires k < |names.earlier| && names.earlier[k] == row.id != ""
    requires forall j | 0 <= j < |names.earlier| :: NotLive(rows, names.earlier[j])
    requires forall j | 0 <= j < k :: names.earlier[j] == "" || !Has(rows, names.earlier[j])
    ensures Match(rows, names) == Some((row, ByEarlierId))
  {
    NotFound(rows, [names.exact]);
    NoneLive(rows, names.earlier);
    FirstAnyOf(rows, names.earlier, k, row, |names.earlier|);
    assert names.earlier[..|names.earlier|] == names.earlier;
  }

  lemma {:induction false} NoneLive(rows: seq<Row>, ids: seq<string>)
    requires forall j | 0 <= j < |ids| :: NotLive(rows, ids[j])
    ensures FirstOf(rows, ids, true) == None
  {
    if ids != [] {
      NoneLive(rows, ids[..|ids| - 1]);
      FirstRowIn(rows, ids[|ids| - 1]);
      assert NotLive(rows, ids[|ids| - 1]);
    }
  }

  lemma {:induction false} FirstRowIn(rows: seq<Row>, id: string)
    ensures FirstRow(rows, id).Some? ==> FirstRow(rows, id).value in rows && FirstRow(rows, id).value.id == id
  {
    if rows != [] {
      FirstRowIn(rows[1..], id);
    }
  }

  lemma {:induction false} FirstAnyOf(rows: seq<Row>, ids: seq<string>, k: nat, row: Row, n: nat)
    requires UniqueIds(rows) && row in rows && row.id != ""
    requires k < n <= |ids| && ids[k] == row.id && forall j | 0 <= j < k :: ids[j] == "" || !Has(rows, ids[j])
    ensures FirstOf(rows, ids[..n], false) == Some(row)
  {
    assert ids[..n][..n - 1] == ids[..n - 1] && ids[..n][n - 1] == ids[n - 1];
    if n - 1 == k {
      NotFound(rows, ids[..k]);
      UniqueRow(rows, row);
    } else {
      FirstAnyOf(rows, ids, k, row, n - 1);
    }
  }

  /** A log with none of the names has not the decision. */
  lemma NoMatch(rows: seq<Row>, names: Names)
    requires !Has(rows, names.exact)
    requires forall id | id in names.earlier + names.retired :: !Has(rows, id)
    ensures Match(rows, names) == None
  {
    NotFound(rows, [names.exact]);
    NotFound(rows, names.earlier);
    NotFound(rows, names.retired);
  }

  lemma {:induction false} NotFound(rows: seq<Row>, ids: seq<string>)
    requires forall j | 0 <= j < |ids| :: ids[j] == "" || !Has(rows, ids[j])
    ensures FirstOf(rows, ids, true) == None == FirstOf(rows, ids, false)
  {
    if ids != [] {
      NotFound(rows, ids[..|ids| - 1]);
      FirstRowHas(rows, ids[|ids| - 1]);
    }
  }

  lemma {:induction false} FirstLiveOf(rows: seq<Row>, ids: seq<string>, k: nat, row: Row, n: nat)
    requires UniqueIds(rows) && row in rows && row.supersededBy == "" && row.id != ""
    requires k < n <= |ids| && ids[k] == row.id && forall j | 0 <= j < k :: NotLive(rows, ids[j])
    ensures FirstOf(rows, ids[..n], true) == Some(row)
  {
    assert ids[..n][..n - 1] == ids[..n - 1] && ids[..n][n - 1] == ids[n - 1];
    if n - 1 == k {
      NoneLive(rows, ids[..k]);
      UniqueRow(rows, row);
    } else {
      FirstLiveOf(rows, ids, k, row, n - 1);
    }
  }

  /** The names carried further down the chain: those of the row just found, then the older ones. */
  lemma MergedNames(newer: Names, older: Names, id: string)
    ensures Merged(newer, older).exact == newer.exact
    ensures id in Merged(newer, older).earlier <==> id != newer.exact && (id in newer.earlier || id == older.exact || id in older.earlier)
    ensures id in Merged(newer, older).retired <==> id in newer.retired || id in older.retired
  {
    hide Dedupe, Except;
    ExceptMembers(Dedupe(newer.earlier + [older.exact] + older.earlier), newer.exact, id);
    DedupeMembers(newer.earlier + [older.exact] + older.earlier, id);
    DedupeMembers(newer.retired + older.retired, id);
  }

  /** A fork retires an id by a suffix "-yyyymmdd-hhmm". */
  lemma RetiredName(base: string, day: string, time: string)
    requires |day| == 8 && Digits(day, 0, 8) && |time| == 4 && Digits(time, 0, 4)
    ensures Stripped(base + "-" + day + "-" + time, 0) == Some(base)
  {
    StrippedFrom(base, day, time, 0);
  }

  lemma {:induction false} StrippedFrom(base: string, day: string, time: string, from: nat)
    requires |day| == 8 && Digits(day, 0, 8) && |time| == 4 && Digits(time, 0, 4) && from <= |base|
    ensures Stripped(base + "-" + day + "-" + time, from) == Some(base)
    decreases |base| - from
  {
    var s := base + "-" + day + "-" + time;
    var t := s[from..];
    var p := |base| - from;
    assert t[p] == '-' && t[p + 9] == '-' && |t| == p + 14;
    if from == |base| {
      assert forall k | 1 <= k < 9 :: t[k] == day[k - 1];
      assert forall k | 10 <= k < 14 :: t[k] == time[k - 10];
      assert s[..from] == base;
    } else {
      assert !RetiredSuffix(t);
      StrippedFrom(base, day, time, from + 1);
    }
  }

  /** An id of another form is no retired one, whatever the number behind its suffix. */
  lemma {:induction false} RetiredOnly(id: string, from: nat)
    requires from <= |id|
    ensures Stripped(id, from).Some? <==> exists m :: from <= m <= |id| && RetiredSuffix(id[m..])
    ensures Stripped(id, from).Some? ==>
              var base := Stripped(id, from).value;
              from <= |base| <= |id| && base == id[..|base|] && RetiredSuffix(id[|base|..])
              && forall m | from <= m < |base| :: !RetiredSuffix(id[m..])
    decreases |id| - from
  {
    hide RetiredSuffix;
    if !RetiredSuffix(id[from..]) && from < |id| {
      RetiredOnly(id, from + 1);
    }
  }

  /** A row is looked for under the ids that lead to it, and under what all these and its own were retired from. */
  lemma NamesAre(rows: seq<Row>, id: string, name: string)
    ensures NamesOf(rows, id).exact == id
    ensures name in NamesOf(rows, id).earlier <==> name != id && name in Predecessors(rows, id)
    ensures name in NamesOf(rows, id).retired <==>
            name != "" && (Stripped(id, 0) == Some(name) || RetiredFrom(NamesOf(rows, id).earlier, name))
  {
    hide Predecessors, Except, Stripped, RetiredNames, RetiredFrom;
    var earlier := Except(Predecessors(rows, id), id);
    ExceptMembers(Predecessors(rows, id), id, name);
    RetiredMembers([id] + earlier, name);
    RetiredCons(id, earlier, name);
  }

  lemma RetiredCons(id: string, ids: seq<string>, name: string)
    ensures RetiredFrom([id] + ids, name) <==> Stripped(id, 0) == Some(name) || RetiredFrom(ids, name)
  {
    hide Stripped;
    var all := [id] + ids;
    assert id in all && forall one | one in ids :: one in all;
    assert forall one | one in all :: one in ids || one == id;
  }

  ghost predicate RetiredFrom(ids: seq<string>, name: string) {
    exists one :: one in ids && Stripped(one, 0) == Some(name)
  }

  lemma {:induction false} RetiredMembers(ids: seq<string>, name: string)
    ensures name in RetiredNames(ids) <==> name != "" && RetiredFrom(ids, name)
  {
    hide Stripped, RetiredFrom;
    if ids == [] {
      NoneRetired(name);
    } else {
      var n := |ids| - 1;
      RetiredMembers(ids[..n], name);
      assert ids == ids[..n] + [ids[n]];
      RetiredSnoc(ids[..n], ids[n], name);
    }
  }

  lemma NoneRetired(name: string)
    ensures !RetiredFrom([], name)
  {
  }

  lemma RetiredSnoc(ids: seq<string>, id: string, name: string)
    ensures RetiredFrom(ids + [id], name) <==> RetiredFrom(ids, name) || Stripped(id, 0) == Some(name)
  {
    hide Stripped;
    var all := ids + [id];
    assert id in all && forall one | one in ids :: one in all;
    assert forall one | one in all :: one in ids || one == id;
  }

  // ----- One hop of the chain ------------------------------------------------------------

  predicate DistinctRuns(chain: seq<ChainRun>) {
    forall i, j | 0 <= i < j < |chain| :: KeyOf(chain[i]) != KeyOf(chain[j])
  }

  /** What the parent's log finds for the row. */
  ghost function InParent(row: Row, chain: seq<ChainRun>): Option<(Row, How)>
    requires |chain| >= 2
  {
    if chain[1].readable then Match(chain[1].rows, NamesOf(chain[0].rows, row.id)) else None
  }

  /** The parent's entry shows what its log finds. */
  lemma ShowsParent(row: Row, chain: seq<ChainRun>, others: seq<Entry>)
    requires |chain| >= 2 && DistinctRuns(chain) && chain[1].inLineage && OutsideLineage(others)
    ensures FoundIn(History(row, chain, others), chain)[1] == EntryOf(chain[1], InParent(row, chain)).found
  {
    var key, names, hit := KeyOf(chain[1]), NamesOf(chain[0].rows, row.id), InParent(row, chain);
    var rest := if hit.Some? then Merged(NamesOf(chain[1].rows, hit.value.0.id), names) else names;
    var head, parent := EntryOf(chain[0], Some((row, ById))), EntryOf(chain[1], hit);
    assert ChainEntries(row, chain) == [head] + ([parent] + EntriesFrom(chain, 2, rest));
    hide History, Keep, Latest, ByRun, EntriesFrom, NamesOf, Match, Merged, ChainEntries;
    ShownIs(row, chain, others, key);
    NoEntryOf(chain, 2, rest, key);
    KeepFirst(parent, EntriesFrom(chain, 2, rest), key);
    KeepFirst(head, [parent] + EntriesFrom(chain, 2, rest), key);
    assert [parent] + [] == [parent];
    LatestStep([parent]);
  }

  /** What the lineage entry of run i shows: a value, or nothing. */
  ghost function Shown(row: Row, chain: seq<ChainRun>, others: seq<Entry>, i: nat): Option<Value>
    requires i < |chain|
  {
    var f := FoundIn(History(row, chain, others), chain)[i];
    if f.Some? then Some(f.value.value) else None
  }

  ghost predicate ShowsValue(row: Row, chain: seq<ChainRun>, others: seq<Entry>, i: nat, norm: string)
    requires i < |chain|
  {
    Shown(row, chain, others, i).Some? && Shown(row, chain, others, i).value.norm == norm
  }

  /** Run s is the oldest of the unbroken streak of the value from the parent on. */
  ghost predicate OldestOfStreak(row: Row, chain: seq<ChainRun>, others: seq<Entry>, s: nat, norm: string)
    requires s < |chain|
  {
    1 <= s && (forall i | 1 <= i <= s :: ShowsValue(row, chain, others, i, norm))
    && (s + 1 < |chain| ==> !ShowsValue(row, chain, others, s + 1, norm))
  }

  /** A person's answer is the person's. */
  lemma HumanAnswer(row: Row, chain: seq<ChainRun>, others: seq<Entry>)
    requires chain != [] && (row.status.Overridden? || row.status.HumanDecided?)
    ensures OriginIn(row, chain, others) == ByHuman(row.status)
  {
    hide FoundIn, History;
  }

  /** The oldest run of a chain decides. */
  lemma OldestRunIsNew(row: Row, chain: seq<ChainRun>, others: seq<Entry>)
    requires |chain| == 1 && !row.status.Overridden? && !row.status.HumanDecided?
    ensures OriginIn(row, chain, others) == Traced(New, None, Key(chain[0].workspace, chain[0].runId), "", false)
  {
    hide FoundIn, History;
  }

  /** A parent whose log does not have the decision: new. */
  lemma AbsentIsNew(row: Row, chain: seq<ChainRun>, others: seq<Entry>)
    requires |chain| >= 2 && DistinctRuns(chain) && chain[1].inLineage && OutsideLineage(others)
    requires !row.status.Overridden? && !row.status.HumanDecided?
    requires InParent(row, chain) == None
    ensures OriginIn(row, chain, others) == Traced(New, None, Key(chain[0].workspace, chain[0].runId), "", false)
  {
    ShowsParent(row, chain, others);
    hide FoundIn, History, NamesOf, Match;
  }

  lemma HopChanged(row: Row, found: seq<Option<Found>>, chain: seq<ChainRun>)
    requires |chain| == |found| >= 2 && found[1].Some? && !Human(row.status) && found[1].value.value.norm != row.ai.norm
    ensures OriginOf(row, found, chain) ==
            Traced(Changed, Some(KeyOf(chain[1])), KeyOf(chain[0]), Replaced(found[1].value), chain[0].via.Cloned?)
  {
  }

  /** Another value in the parent: changed, and what is shown as replaced is the parent's. */
  lemma OtherValueIsChanged(row: Row, chain: seq<ChainRun>, others: seq<Entry>, was: Row, how: How)
    requires |chain| >= 2 && DistinctRuns(chain) && chain[1].inLineage && OutsideLineage(others)
    requires !row.status.Overridden? && !row.status.HumanDecided?
    requires InParent(row, chain) == Some((was, how)) && !was.status.Overridden? && !was.status.HumanDecided?
    requires was.ai.norm != row.ai.norm
    ensures OriginIn(row, chain, others) ==
            Traced(Changed, Some(Key(chain[1].workspace, chain[1].runId)), Key(chain[0].workspace, chain[0].runId),
                   if was.plain != "" then was.plain else was.ai.text, chain[0].via.Cloned?)
  {
    ShowsParent(row, chain, others);
    hide FoundIn, History, NamesOf, Match, OriginOf, InParent;
    HopChanged(row, FoundIn(History(row, chain, others), chain), chain);
  }

  /** A person's answer in the parent is what was replaced, in the person's words. */
  lemma HumanValueIsChanged(row: Row, chain: seq<ChainRun>, others: seq<Entry>, was: Row, how: How)
    requires |chain| >= 2 && DistinctRuns(chain) && chain[1].inLineage && OutsideLineage(others)
    requires !row.status.Overridden? && !row.status.HumanDecided?
    requires InParent(row, chain) == Some((was, how)) && (was.status.Overridden? || was.status.HumanDecided?)
    requires was.override.Some? && was.override.value.norm != row.ai.norm
    ensures OriginIn(row, chain, others) ==
            Traced(Changed, Some(Key(chain[1].workspace, chain[1].runId)), Key(chain[0].workspace, chain[0].runId),
                   was.override.value.text, chain[0].via.Cloned?)
  {
    ShowsParent(row, chain, others);
    hide FoundIn, History, NamesOf, Match, OriginOf, InParent;
    HopChanged(row, FoundIn(History(row, chain, others), chain), chain);
  }

  /** Some row that a fork retired leads to this one by `superseded_by`. */
  ghost predicate RetiredInFavour(row: Row, run: ChainRun) {
    exists gone :: gone in run.rows && gone.inherited && gone.id in Predecessors(run.rows, row.id)
  }

  /** The same value in the parent, under the same id, and no row retired in
      this one's favour: carried. Otherwise it was written again: reaffirmed. */
  lemma SameValueIsKept(row: Row, chain: seq<ChainRun>, others: seq<Entry>, was: Row, how: How)
    requires |chain| >= 2 && DistinctRuns(chain) && chain[1].inLineage && OutsideLineage(others) && UniqueIds(chain[0].rows)
    requires !chain[0].via.Cloned? && !row.status.Overridden? && !row.status.HumanDecided?
    requires InParent(row, chain) == Some((was, how)) && !was.status.Overridden? && !was.status.HumanDecided?
    requires was.ai.norm == row.ai.norm
    ensures var o := OriginIn(row, chain, others);
            o.Traced? && o.kind == (if how == ById && !RetiredInFavour(row, chain[0]) then Carried else Reaffirmed)
            && o.decidedIn == Key(chain[0].workspace, chain[0].runId) && o.previous == "" && !o.onCopy
            && exists s :: 0 <= s < |chain| && o.tracedTo == Some(Key(chain[s].workspace, chain[s].runId))
                        && OldestOfStreak(row, chain, others, s, row.ai.norm)
  {
    hide FoundIn, History, NamesOf, Match, ForkRetired, RetiredInFavour, OldestOfStreak, OriginOf, StreakEnd, InParent, UniqueIds;
    ShowsParent(row, chain, others);
    RetiredIs(row, chain[0]);
    var found := FoundIn(History(row, chain, others), chain);
    HopKept(row, found, chain);
    StreakIs(row, chain, others, row.ai.norm);
  }

  lemma HopKept(row: Row, found: seq<Option<Found>>, chain: seq<ChainRun>)
    requires |chain| == |found| >= 2 && found[1].Some? && !Human(row.status) && found[1].value.value.norm == row.ai.norm
    requires !chain[0].via.Cloned?
    ensures OriginOf(row, found, chain) ==
            Traced(if found[1].value.how != ById || ForkRetired(row, chain[0]) then Reaffirmed else Carried,
                   Some(KeyOf(chain[StreakEnd(found, row.ai.norm, 1)])), KeyOf(chain[0]), "", false)
  {
    hide StreakEnd, ForkRetired;
  }

  lemma StreakIs(row: Row, chain: seq<ChainRun>, others: seq<Entry>, norm: string)
    requires |chain| >= 2 && ShowsValue(row, chain, others, 1, norm)
    ensures OldestOfStreak(row, chain, others, StreakEnd(FoundIn(History(row, chain, others), chain), norm, 1), norm)
  {
    hide FoundIn, History;
  }

  lemma RetiredIs(row: Row, run: ChainRun)
    requires UniqueIds(run.rows)
    ensures ForkRetired(row, run) <==> RetiredInFavour(row, run)
  {
    hide Predecessors;
    if ForkRetired(row, run) {
      var id :| id in Predecessors(run.rows, row.id) && FirstRow(run.rows, id).Some? && FirstRow(run.rows, id).value.inherited;
      assert FirstRow(run.rows, id).value in run.rows;
    }
    if RetiredInFavour(row, run) {
      var gone :| gone in run.rows && gone.inherited && gone.id in Predecessors(run.rows, row.id);
      UniqueRow(run.rows, gone);
    }
  }

  // ----- Forked runs ---------------------------------------------------------------------

  /** A fork that copied the log verbatim carries every live AI row, back to the
      oldest run of its streak; the rows in whose favour it retired another are
      reaffirmed. */
  lemma VerbatimFork(row: Row, parent: seq<ChainRun>, fork: ChainRun, others: seq<Entry>)
    requires parent != [] && DistinctRuns([fork] + parent) && parent[0].readable && parent[0].inLineage && OutsideLineage(others)
    requires fork.via.Forked? && fork.rows == parent[0].rows && UniqueIds(fork.rows)
    requires row in fork.rows && row.id != "" && row.supersededBy == "" && !row.status.Overridden? && !row.status.HumanDecided?
    ensures var chain, o := [fork] + parent, OriginIn(row, [fork] + parent, others);
            o.Traced? && o.kind == (if RetiredInFavour(row, fork) then Reaffirmed else Carried)
            && o.decidedIn == Key(fork.workspace, fork.runId)
            && exists s :: 0 <= s < |chain| && o.tracedTo == Some(Key(chain[s].workspace, chain[s].runId))
                        && OldestOfStreak(row, chain, others, s, row.ai.norm)
    ensures (forall r | r in fork.rows :: !r.inherited) ==>
              OriginIn(row, [fork] + parent, others).Traced? && OriginIn(row, [fork] + parent, others).kind == Carried
  {
    var chain := [fork] + parent;
    assert chain[0] == fork && chain[1] == parent[0];
    MatchById(parent[0].rows, NamesOf(fork.rows, row.id), row);
    hide OriginIn, OldestOfStreak, Match, UniqueIds;
    SameValueIsKept(row, chain, others, row, ById);
  }

  /** The value edited in the fork: changed, and `previous` is what the parent shows. */
  lemma EditedFork(row: Row, was: Row, parent: seq<ChainRun>, fork: ChainRun, others: seq<Entry>)
    requires parent != [] && DistinctRuns([fork] + parent) && parent[0].readable && parent[0].inLineage && OutsideLineage(others)
    requires fork.via.Forked? && UniqueIds(parent[0].rows) && was in parent[0].rows && was.id == row.id != ""
    requires !row.status.Overridden? && !row.status.HumanDecided? && !was.status.Overridden? && !was.status.HumanDecided?
    requires row.ai.norm != was.ai.norm
    ensures OriginIn(row, [fork] + parent, others) ==
            Traced(Changed, Some(Key(parent[0].workspace, parent[0].runId)), Key(fork.workspace, fork.runId),
                   if was.plain != "" then was.plain else was.ai.text, false)
  {
    var chain := [fork] + parent;
    assert chain[0] == fork && chain[1] == parent[0];
    MatchById(parent[0].rows, NamesOf(fork.rows, row.id), was);
    hide OriginIn, Match, UniqueIds;
    OtherValueIsChanged(row, chain, others, was, ById);
  }

  /** Found only under an older name, with the same value: reaffirmed. */
  lemma RenamedFork(row: Row, was: Row, k: nat, parent: seq<ChainRun>, fork: ChainRun, others: seq<Entry>)
    requires parent != [] && DistinctRuns([fork] + parent) && parent[0].readable && parent[0].inLineage && OutsideLineage(others)
    requires fork.via.Forked? && UniqueIds(fork.rows) && UniqueIds(parent[0].rows) && was in parent[0].rows && was.supersededBy == ""
    requires !row.status.Overridden? && !row.status.HumanDecided? && !was.status.Overridden? && !was.status.HumanDecided?
    requires !Has(parent[0].rows, row.id) && row.ai.norm == was.ai.norm
    requires var names := NamesOf(fork.rows, row.id).earlier;
             k < |names| && names[k] == was.id != "" && forall j | 0 <= j < k :: NotLive(parent[0].rows, names[j])
    ensures var o := OriginIn(row, [fork] + parent, others);
            o.Traced? && o.kind == Reaffirmed && o.decidedIn == Key(fork.workspace, fork.runId)
  {
    var chain := [fork] + parent;
    assert chain[0] == fork && chain[1] == parent[0];
    MatchByEarlier(parent[0].rows, NamesOf(fork.rows, row.id), k, was);
    hide OriginIn, OldestOfStreak, Match, UniqueIds;
    SameValueIsKept(row, chain, others, was, ByEarlierId);
  }

  /** None of its names in the parent: new. */
  lemma NewInFork(row: Row, parent: seq<ChainRun>, fork: ChainRun, others: seq<Entry>)
    requires parent != [] && DistinctRuns([fork] + parent) && parent[0].readable && parent[0].inLineage && OutsideLineage(others)
    requires fork.via.Forked? && !row.status.Overridden? && !row.status.HumanDecided?
    requires !Has(parent[0].rows, row.id)
    requires var names := NamesOf(fork.rows, row.id); forall id | id in names.earlier + names.retired :: !Has(parent[0].rows, id)
    ensures OriginIn(row, [fork] + parent, others) == Traced(New, None, Key(fork.workspace, fork.runId), "", false)
  {
    var chain := [fork] + parent;
    assert chain[0] == fork && chain[1] == parent[0];
    NamesAre(fork.rows, row.id, row.id);
    NoMatch(parent[0].rows, NamesOf(fork.rows, row.id));
    hide OriginIn, Match, NamesOf;
    AbsentIsNew(row, chain, others);
  }
}
