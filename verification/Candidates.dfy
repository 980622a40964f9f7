/**
 The names one decision may have in another log, and the row they find there
 (apps/opps/decision_lineage.py, `_Candidates` and `_match`).
 */
module Candidates {
  import opened Options
  import opened Lineage

  /** Digits from position i up to position j. */
  predicate Digits(s: string, i: nat, j: nat)
    requires i <= j <= |s|
  {
    forall k | i <= k < j :: '0' <= s[k] <= '9'
  }

  /** "-<8 digits>-<4 digits>", optionally followed by "-<digits>". */
  predicate RetiredSuffix(s: string) {
    |s| >= 14 && s[0] == '-' && Digits(s, 1, 9) && s[9] == '-' && Digits(s, 10, 14)
    && (|s| == 14 || (s[14] == '-' && |s| > 15 && Digits(s, 15, |s|)))
  }

  /** The id without the suffix a fork retired it under: the leftmost one. */
  function Stripped(id: string, from: nat): Option<string>
    requires from <= |id|
    decreases |id| - from
  {
    if RetiredSuffix(id[from..]) then Some(id[..from])
    else if from == |id| then None
    else Stripped(id, from + 1)
  }

  function RetiredNames(ids: seq<string>): seq<string> {
    if ids == [] then []
    else
      var n := |ids| - 1;
      var s := Stripped(ids[n], 0);
      RetiredNames(ids[..n]) + if Truthy(s) then [s.value] else []
  }

  datatype Names = Names(exact: string, earlier: seq<string>, retired: seq<string>)

  ghost function NamesOf(rows: seq<Row>, id: string): Names {
    var earlier := Except(Predecessors(rows, id), id);
    Names(id, earlier, RetiredNames([id] + earlier))
  }

  /** `merged`: the older names stay, as a fallback. */
  function Merged(newer: Names, older: Names): Names {
    Names(newer.exact, Except(Dedupe(newer.earlier + [older.exact] + older.earlier), newer.exact),
          Dedupe(newer.retired + older.retired))
  }

  // ----- The row they find -----------------------------------------------------------

  datatype How = ById | ByEarlierId | ByRetiredId

  function FirstRow(rows: seq<Row>, id: string): (row: Option<Row>)
    ensures row.Some? ==> row.value in rows && row.value.id == id
  {
    if rows == [] then None
    else if rows[0].id == id then Some(rows[0])
    else FirstRow(rows[1..], id)
  }

  /** The first listed id whose row passes: any row, or only a live one. */
  function FirstOf(rows: seq<Row>, ids: seq<string>, live: bool): Option<Row> {
    if ids == [] then None
    else
      var n := |ids| - 1;
      var earlier, row := FirstOf(rows, ids[..n], live), if ids[n] == "" then None else FirstRow(rows, ids[n]);
      if earlier.Some? then earlier
      else if row.Some? && (!live || row.value.supersededBy == "") then row
      else None
  }

  /** A live row first; failing that, one that has been superseded. */
  function First(rows: seq<Row>, ids: seq<string>): Option<Row> {
    var row := FirstOf(rows, ids, true);
    if row.Some? then row else FirstOf(rows, ids, false)
  }

  function Match(rows: seq<Row>, names: Names): Option<(Row, How)> {
    var exact, earlier, retired := First(rows, [names.exact]), First(rows, names.earlier), First(rows, names.retired);
    if exact.Some? then Some((exact.value, ById))
    else if earlier.Some? then Some((earlier.value, ByEarlierId))
    else if retired.Some? then Some((retired.value, ByRetiredId))
    else None
  }

  // ----- Repetitions among the names change nothing ------------------------------------

  lemma FirstOfSnoc(rows: seq<Row>, ids: seq<string>, id: string, live: bool)
    ensures FirstOf(rows, ids + [id], live) ==
            var row := if id == "" then None else FirstRow(rows, id);
            if FirstOf(rows, ids, live).Some? then FirstOf(rows, ids, live)
            else if row.Some? && (!live || row.value.supersededBy == "") then row
            else None
  {
    assert (ids + [id])[..|ids|] == ids;
  }

  lemma {:induction false} FirstOfFinds(rows: seq<Row>, ids: seq<string>, id: string, live: bool)
    requires id in ids && id != "" && FirstRow(rows, id).Some? && (!live || FirstRow(rows, id).value.supersededBy == "")
    ensures FirstOf(rows, ids, live).Some?
  {
    var n := |ids| - 1;
    assert ids == ids[..n] + [ids[n]];
    if id in ids[..n] {
      FirstOfFinds(rows, ids[..n], id, live);
    }
  }

  lemma {:induction false} FirstOfDedupe(rows: seq<Row>, ids: seq<string>, live: bool)
    ensures FirstOf(rows, Dedupe(ids), live) == FirstOf(rows, ids, live)
  {
    if ids != [] {
      var n := |ids| - 1;
      var init, id := ids[..n], ids[n];
      assert ids == init + [id];
      FirstOfDedupe(rows, init, live);
      DedupeSnoc(init, id);
      FirstOfSnoc(rows, init, id, live);
      if id in init {
        if id != "" && FirstRow(rows, id).Some? && (!live || FirstRow(rows, id).value.supersededBy == "") {
          FirstOfFinds(rows, init, id, live);
        }
      } else {
        FirstOfSnoc(rows, Dedupe(init), id, live);
      }
    }
  }

  /** Alike: the same names, but for repetitions. */
  predicate Alike(a: Names, b: Names) {
    a.exact == b.exact && Dedupe(a.earlier) == Dedupe(b.earlier) && Dedupe(a.retired) == Dedupe(b.retired)
  }

  lemma FirstAlike(rows: seq<Row>, a: seq<string>, b: seq<string>)
    requires Dedupe(a) == Dedupe(b)
    ensures First(rows, a) == First(rows, b)
  {
    hide FirstOf, Dedupe;
    FirstOfDedupe(rows, a, true);
    FirstOfDedupe(rows, b, true);
    FirstOfDedupe(rows, a, false);
    FirstOfDedupe(rows, b, false);
  }

  lemma MatchAlike(rows: seq<Row>, a: Names, b: Names)
    requires Alike(a, b)
    ensures Match(rows, a) == Match(rows, b)
  {
    hide First, Dedupe;
    FirstAlike(rows, a.earlier, b.earlier);
    FirstAlike(rows, a.retired, b.retired);
  }

  lemma MergedAlike(newer: Names, a: Names, b: Names)
    requires Alike(a, b)
    ensures Alike(Merged(newer, a), Merged(newer, b))
  {
    hide Dedupe, Except;
    DedupeTail(newer.earlier + [a.exact], a.earlier);
    DedupeTail(newer.earlier + [a.exact], b.earlier);
    DedupeTail(newer.retired, a.retired);
    DedupeTail(newer.retired, b.retired);
  }

  /** Names merged with themselves gain nothing: a copy of a log teaches nothing. */
  lemma MergedSelf(a: Names)
    requires a.exact !in a.earlier
    ensures Alike(Merged(a, a), a)
  {
    hide Dedupe, Except;
    SelfEarlier(a.earlier, a.exact);
    DedupeKnown(a.retired, a.retired);
    DedupeTwice(a.retired);
  }

  lemma SelfEarlier(earlier: seq<string>, x: string)
    requires x !in earlier
    ensures Dedupe(Except(Dedupe(earlier + [x] + earlier), x)) == Dedupe(earlier)
  {
    hide Dedupe, Except;
    ExceptDedupe(earlier + [x] + earlier, x);
    ExceptMiddle(earlier, earlier, x);
    DedupeKnown(earlier, earlier);
    DedupeTwice(earlier);
  }

  lemma {:induction false} ExceptNone(s: seq<string>, x: string)
    requires x !in s
    ensures Except(s, x) == s
  {
    if s != [] {
      var n := |s| - 1;
      assert s == s[..n] + [s[n]] && s[n] in s;
      ExceptNone(s[..n], x);
    }
  }

  lemma {:induction false} ExceptMiddle(a: seq<string>, b: seq<string>, x: string)
    requires x !in a && x !in b
    ensures Except(a + [x] + b, x) == a + b
  {
    if b == [] {
      ExceptNone(a, x);
      ExceptSnoc(a, x, x);
      assert a + [x] + b == a + [x] && a + b == a;
    } else {
      var n := |b| - 1;
      assert b[n] in b;
      ExceptMiddle(a, b[..n], x);
      ExceptSnoc(a + [x] + b[..n], b[n], x);
      assert a + [x] + b == a + [x] + b[..n] + [b[n]] && a + b == a + b[..n] + [b[n]];
    }
  }
}
