/**
 Merging decision overrides with a capped history (apps/opps/decision_overrides.py,
 `merge_overrides`).
 */
module Overrides {
  import opened Options

  const MAX_HISTORY := 25

  /** The fields of a row that its history remembers; "" is as good as absent. */
  datatype Answer = Answer(override: string, reasoning: string, decidedBy: string, decidedByName: string,
                           decidedByVerified: Option<bool>, decidedAt: string, run: string, confirmed: bool)

  datatype Row = Row(id: string, aiDefault: string, answer: Answer, history: seq<Answer>)

  /** The characters Python's `str.strip` removes. */
  predicate IsSpace(c: char) {
    '\t' <= c <= '\r' || '\U{1c}' <= c <= ' ' || '\U{2000}' <= c <= '\U{200a}'
    || c in "\U{85}\U{a0}\U{1680}\U{2028}\U{2029}\U{202f}\U{205f}\U{3000}"
  }

  predicate Blank(s: string) {
    forall i | 0 <= i < |s| :: IsSpace(s[i])
  }

  /** Back to the AI default with nothing to say; a confirmation is no revert. */
  predicate IsRevert(row: Row) {
    !row.answer.confirmed && row.answer.override == row.aiDefault && Blank(row.answer.reasoning)
  }

  /** A revert nobody had touched before is not kept. */
  predicate Dropped(row: Row) {
    IsRevert(row) && row.history == []
  }

  /** The dictionary of rows and the order in which their ids were first seen. */
  datatype Book = Book(order: seq<string>, rows: map<string, Row>)

  ghost predicate BookOk(b: Book) {
    (forall i, j | 0 <= i < j < |b.order| :: b.order[i] != b.order[j])
    && (forall id :: id in b.order <==> id in b.rows)
    && (forall id | id in b.rows :: id != "" && b.rows[id].id == id)
  }

  function Put(b: Book, row: Row): Book {
    Book(if row.id in b.rows then b.order else b.order + [row.id], b.rows[row.id := row])
  }

  /** The rows already stored; a later row of the same id replaces an earlier one. */
  function Load(rows: seq<Row>): Book {
    if rows == [] then Book([], map[])
    else
      var b, last := Load(rows[..|rows| - 1]), rows[|rows| - 1];
      if last.id == "" then b else Put(b, last)
  }

  function Capped(history: seq<Answer>): seq<Answer> {
    if |history| <= MAX_HISTORY then history else history[..MAX_HISTORY]
  }

  /** A new row pushes its predecessor's answer onto its history. */
  function Save(b: Book, row: Row): Book {
    if row.id == "" then b
    else if row.id in b.rows then
      Put(b, row.(history := Capped([b.rows[row.id].answer] + b.rows[row.id].history)))
    else Put(b, row.(history := []))
  }

  function SaveAll(b: Book, rows: seq<Row>): Book {
    if rows == [] then b else Save(SaveAll(b, rows[..|rows| - 1]), rows[|rows| - 1])
  }

  function ListingOf(order: seq<string>, rows: map<string, Row>): seq<Row> {
    if order == [] then []
    else
      var n := |order| - 1;
      ListingOf(order[..n], rows) + if order[n] in rows && !Dropped(rows[order[n]]) then [rows[order[n]]] else []
  }

  function Merged(existing: seq<Row>, added: seq<Row>): seq<Row> {
    var b := SaveAll(Load(existing), added);
    ListingOf(b.order, b.rows)
  }

  /** `merge_overrides`. */
  method MergeOverrides(existing: seq<Row>, added: seq<Row>) returns (merged: seq<Row>)
    ensures merged == Merged(existing, added)
  {
    var order: seq<string>, rows: map<string, Row> := [], map[];
    for k := 0 to |existing|
      invariant Book(order, rows) == Load(existing[..k])
    {
      assert existing[..k + 1][..k] == existing[..k];
      var row := existing[k];
      if row.id != "" {
        if row.id !in rows {
          order := order + [row.id];
        }
        rows := rows[row.id := row];
      }
    }
    assert existing[..|existing|] == existing;
    for k := 0 to |added|
      invariant Book(order, rows) == SaveAll(Load(existing), added[..k])
    {
      assert added[..k + 1][..k] == added[..k];
      var row := added[k];
      if row.id != "" {
        if row.id in rows {
          row := row.(history := Capped([rows[row.id].answer] + rows[row.id].history));
        } else {
          row := row.(history := []);
          order := order + [row.id];
        }
        rows := rows[row.id := row];
      }
    }
    assert added[..|added|] == added;
    LoadOk(existing);
    SaveAllOk(Load(existing), added);
    merged := [];
    for k := 0 to |order|
      invariant merged == ListingOf(order[..k], rows)
    {
      assert order[..k + 1][..k] == order[..k];
      if !Dropped(rows[order[k]]) {
        merged := merged + [rows[order[k]]];
      }
    }
    assert order[..|order|] == order;
  }

  lemma PutOk(b: Book, row: Row)
    requires BookOk(b) && row.id != ""
    ensures BookOk(Put(b, row))
  {
  }

  lemma {:induction false} LoadOk(rows: seq<Row>)
    ensures BookOk(Load(rows))
  {
    hide BookOk;
    if rows == [] {
      EmptyOk();
    } else {
      LoadOk(rows[..|rows| - 1]);
      if rows[|rows| - 1].id != "" {
        PutOk(Load(rows[..|rows| - 1]), rows[|rows| - 1]);
      }
    }
  }

  lemma EmptyOk()
    ensures BookOk(Book([], map[]))
  {
  }

  lemma SaveOk(b: Book, row: Row)
    requires BookOk(b)
    ensures BookOk(Save(b, row))
  {
    hide BookOk, Put;
    if row.id in b.rows {
      if row.id != "" {
        PutOk(b, row.(history := Capped([b.rows[row.id].answer] + b.rows[row.id].history)));
      }
    } else if row.id != "" {
      PutOk(b, row.(history := []));
    }
  }

  lemma {:induction false} SaveAllOk(b: Book, rows: seq<Row>)
    requires BookOk(b)
    ensures BookOk(SaveAll(b, rows))
  {
    hide BookOk, Save;
    if rows != [] {
      SaveAllOk(b, rows[..|rows| - 1]);
      SaveOk(SaveAll(b, rows[..|rows| - 1]), rows[|rows| - 1]);
    }
  }

  // ----- Histories -----------------------------------------------------------------------

  /** The answers of one id in a batch, newest first. */
  function Touches(rows: seq<Row>, id: string): seq<Answer> {
    if rows == [] then []
    else (if rows[|rows| - 1].id == id then [rows[|rows| - 1].answer] else []) + Touches(rows[..|rows| - 1], id)
  }

  lemma CappedTwice(a: Answer, history: seq<Answer>)
    ensures Capped([a] + Capped(history)) == Capped([a] + history)
  {
  }

  /** All states of an id, newest first: its touches, then what was stored. */
  function States(stored: Option<Row>, added: seq<Row>, id: string): seq<Answer> {
    Touches(added, id) + if stored.Some? then [stored.value.answer] + stored.value.history else []
  }

  function RowIn(b: Book, id: string): Option<Row> {
    if id in b.rows then Some(b.rows[id]) else None
  }

  /** A touched row stands at its newest state, and its history is every state
      it superseded, newest first, cut at 25. An untouched row stands as stored. */
  lemma {:induction false} HistoryIsComplete(b: Book, added: seq<Row>, id: string)
    requires BookOk(b) && id != ""
    ensures var states, row := States(RowIn(b, id), added, id), RowIn(SaveAll(b, added), id);
            (row.Some? <==> states != [])
            && (Touches(added, id) != [] ==> row.Some? && row.value.answer == states[0] && row.value.history == Capped(states[1..]))
            && (Touches(added, id) == [] ==> row == RowIn(b, id))
  {
    hide *;
    if added == [] {
      NoTouches(b, id);
    } else {
      var init, last := added[..|added| - 1], added[|added| - 1];
      assert added == init + [last];
      HistoryIsComplete(b, init, id);
      HistoryStep(b, init, last, id);
      SaveAllSnoc(b, init, last);
    }
  }

  lemma NoTouches(b: Book, id: string)
    ensures Touches([], id) == [] && SaveAll(b, []) == b
    ensures RowIn(b, id).Some? <==> States(RowIn(b, id), [], id) != []
  {
  }

  lemma SaveAllSnoc(b: Book, rows: seq<Row>, row: Row)
    ensures SaveAll(b, rows + [row]) == Save(SaveAll(b, rows), row)
  {
    assert (rows + [row])[..|rows|] == rows;
  }

  lemma HistoryStep(b: Book, init: seq<Row>, last: Row, id: string)
    requires BookOk(b) && id != ""
    requires var states, row := States(RowIn(b, id), init, id), RowIn(SaveAll(b, init), id);
             (row.Some? <==> states != [])
             && (Touches(init, id) != [] ==> row.Some? && row.value.answer == states[0] && row.value.history == Capped(states[1..]))
             && (Touches(init, id) == [] ==> row == RowIn(b, id))
    ensures var states, row := States(RowIn(b, id), init + [last], id), RowIn(Save(SaveAll(b, init), last), id);
            (row.Some? <==> states != [])
            && (Touches(init + [last], id) != [] ==> row.Some? && row.value.answer == states[0] && row.value.history == Capped(states[1..]))
            && (Touches(init + [last], id) == [] ==> row == RowIn(b, id))
  {
    var before, after := States(RowIn(b, id), init, id), States(RowIn(b, id), init + [last], id);
    TouchesSnoc(init, last, id);
    var saved := SaveAll(b, init);
    hide SaveAll, Touches, BookOk, Capped;
    if last.id == id {
      assert after == [last.answer] + before && after[1..] == before;
      if before != [] {
        assert [before[0]] + before[1..] == before;
        CappedTwice(before[0], before[1..]);
      } else {
        NothingCapped();
      }
    } else {
      assert after == before;
    }
  }

  lemma TouchesSnoc(rows: seq<Row>, row: Row, id: string)
    ensures Touches(rows + [row], id) == if row.id == id then [row.answer] + Touches(rows, id) else Touches(rows, id)
  {
    assert (rows + [row])[..|rows|] == rows;
  }

  lemma NothingCapped()
    ensures Capped([]) == []
  {
  }

  // ----- Saving twice --------------------------------------------------------------------

  lemma {:induction false} SaveAllConcat(b: Book, first: seq<Row>, second: seq<Row>)
    ensures SaveAll(b, first + second) == SaveAll(SaveAll(b, first), second)
  {
    hide Save;
    if second == [] {
      assert first + second == first;
    } else {
      var n := |second| - 1;
      SaveAllConcat(b, first, second[..n]);
      SaveAllSnoc(b, first + second[..n], second[n]);
      assert first + second == first + second[..n] + [second[n]];
    }
  }

  /** The ids a listing leaves out. */
  ghost function DroppedIds(b: Book): set<string> {
    set id | id in b.rows && Dropped(b.rows[id])
  }

  function Others(order: seq<string>, gone: set<string>): seq<string> {
    if order == [] then []
    else
      var n := |order| - 1;
      Others(order[..n], gone) + if order[n] in gone then [] else [order[n]]
  }

  /** `small` is `big` without the ids in `gone`, all of which a listing leaves out. */
  ghost predicate Reduced(small: Book, big: Book, gone: set<string>) {
    small.order == Others(big.order, gone)
    && (forall id :: id in small.rows <==> id in big.rows && id !in gone)
    && (forall id | id in small.rows :: small.rows[id] == big.rows[id])
    && (forall id | id in gone :: id in big.rows && Dropped(big.rows[id]))
  }

  lemma OthersSnoc(order: seq<string>, id: string, gone: set<string>)
    ensures Others(order + [id], gone) == if id in gone then Others(order, gone) else Others(order, gone) + [id]
  {
    assert (order + [id])[..|order|] == order;
  }

  lemma ListingSnoc(order: seq<string>, id: string, rows: map<string, Row>)
    ensures ListingOf(order + [id], rows) ==
            if id in rows && !Dropped(rows[id]) then ListingOf(order, rows) + [rows[id]] else ListingOf(order, rows)
  {
    assert (order + [id])[..|order|] == order;
  }

  /** The rows of some ids. */
  function Part(rows: map<string, Row>, ids: seq<string>, gone: set<string>): map<string, Row> {
    map id | id in rows && id in ids && id !in gone :: rows[id]
  }

  lemma PartSnoc(rows: map<string, Row>, ids: seq<string>, id: string, gone: set<string>)
    requires id in rows && id !in ids
    ensures Part(rows, ids + [id], gone) == if id in gone then Part(rows, ids, gone) else Part(rows, ids, gone)[id := rows[id]]
    ensures id !in Part(rows, ids, gone)
  {
  }

  lemma PartNone(rows: map<string, Row>, gone: set<string>)
    ensures Part(rows, [], gone) == map[] && Others([], gone) == [] && ListingOf([], rows) == []
    ensures Load([]) == Book([], map[])
  {
  }

  lemma LoadSnoc(rows: seq<Row>, row: Row)
    requires row.id != ""
    ensures Load(rows + [row]) == Put(Load(rows), row)
  {
    assert (rows + [row])[..|rows|] == rows;
  }

  /** Reading a listing back gives the book without what it left out. */
  lemma LoadListing(b: Book)
    requires BookOk(b)
    ensures Reduced(Load(ListingOf(b.order, b.rows)), b, DroppedIds(b))
    ensures BookOk(Load(ListingOf(b.order, b.rows)))
  {
    LoadPart(b, |b.order|);
    assert b.order[..|b.order|] == b.order;
    LoadOk(ListingOf(b.order, b.rows));
    hide Load, ListingOf, Others, Dropped;
  }

  lemma {:induction false} LoadPart(b: Book, n: nat)
    requires n <= |b.order| && BookOk(b)
    ensures Load(ListingOf(b.order[..n], b.rows)) == Book(Others(b.order[..n], DroppedIds(b)), Part(b.rows, b.order[..n], DroppedIds(b)))
  {
    hide *;
    var gone := DroppedIds(b);
    if n == 0 {
      PartNone(b.rows, gone);
      assert b.order[..0] == [];
    } else {
      var id, ids := b.order[n - 1], b.order[..n - 1];
      LoadPart(b, n - 1);
      assert b.order[..n] == ids + [id];
      OrderOk(b, n - 1);
      ListingSnoc(ids, id, b.rows);
      OthersSnoc(ids, id, gone);
      PartSnoc(b.rows, ids, id, gone);
      LoadSnoc(ListingOf(ids, b.rows), b.rows[id]);
      PutNew(Others(ids, gone), Part(b.rows, ids, gone), b.rows[id]);
    }
  }

  lemma OrderOk(b: Book, n: nat)
    requires BookOk(b) && n < |b.order|
    ensures var id := b.order[n];
            id in b.rows && id !in b.order[..n] && b.rows[id].id == id && id != "" && (id in DroppedIds(b) <==> Dropped(b.rows[id]))
  {
    hide Dropped;
    assert b.order[n] in b.order;
  }

  lemma PutNew(order: seq<string>, rows: map<string, Row>, row: Row)
    requires row.id !in rows
    ensures Put(Book(order, rows), row) == Book(order + [row.id], rows[row.id := row])
  {
  }

  // ----- Merging is an action --------------------------------------------------------------

  lemma SameRow(small: Book, big: Book, gone: set<string>, id: string)
    requires Reduced(small, big, gone) && id !in gone
    ensures RowIn(small, id) == RowIn(big, id)
  {
    hide Dropped, Others;
  }

  lemma PutReduced(small: Book, big: Book, gone: set<string>, row: Row)
    requires Reduced(small, big, gone) && row.id !in gone
    ensures Reduced(Put(small, row), Put(big, row), gone)
  {
    hide Dropped, Others;
    OthersSnoc(big.order, row.id, gone);
  }

  lemma SaveReduced(small: Book, big: Book, gone: set<string>, row: Row)
    requires Reduced(small, big, gone) && row.id !in gone
    ensures Reduced(Save(small, row), Save(big, row), gone)
  {
    hide Reduced, Put, Capped;
    SameRow(small, big, gone, row.id);
    if row.id in big.rows {
      PutReduced(small, big, gone, row.(history := Capped([big.rows[row.id].answer] + big.rows[row.id].history)));
    } else {
      PutReduced(small, big, gone, row.(history := []));
    }
  }

  lemma {:induction false} SaveAllReduced(small: Book, big: Book, gone: set<string>, rows: seq<Row>)
    requires Reduced(small, big, gone) && forall k | 0 <= k < |rows| :: rows[k].id !in gone
    ensures Reduced(SaveAll(small, rows), SaveAll(big, rows), gone)
  {
    hide Reduced, Save;
    if rows != [] {
      SaveAllReduced(small, big, gone, rows[..|rows| - 1]);
      SaveReduced(SaveAll(small, rows[..|rows| - 1]), SaveAll(big, rows[..|rows| - 1]), gone, rows[|rows| - 1]);
    }
  }

  lemma {:induction false} ReducedListing(order: seq<string>, small: map<string, Row>, big: map<string, Row>, gone: set<string>)
    requires forall id :: id in small <==> id in big && id !in gone
    requires forall id | id in small :: small[id] == big[id]
    requires forall id | id in gone :: id in big && Dropped(big[id])
    ensures ListingOf(Others(order, gone), small) == ListingOf(order, big)
  {
    hide Dropped;
    if order != [] {
      var n := |order| - 1;
      ReducedListing(order[..n], small, big, gone);
      assert order == order[..n] + [order[n]];
      OthersSnoc(order[..n], order[n], gone);
      ListingSnoc(order[..n], order[n], big);
      ListingSnoc(Others(order[..n], gone), order[n], small);
    }
  }

  /** The ids that a save drops: first-touch reverts. */
  ghost function DroppedBy(existing: seq<Row>, added: seq<Row>): set<string> {
    DroppedIds(SaveAll(Load(existing), added))
  }

  lemma BooksReduced(existing: seq<Row>, first: seq<Row>)
    ensures BookOk(SaveAll(Load(existing), first)) && BookOk(Load(Merged(existing, first)))
    ensures Reduced(Load(Merged(existing, first)), SaveAll(Load(existing), first), DroppedBy(existing, first))
  {
    hide BookOk, Reduced, Load, SaveAll, ListingOf, DroppedIds;
    LoadOk(existing);
    SaveAllOk(Load(existing), first);
    LoadListing(SaveAll(Load(existing), first));
  }

  /** Saving one batch and then another is saving both at once, unless the
      second touches an id the first save dropped. */
  lemma MergeIsAnAction(existing: seq<Row>, first: seq<Row>, second: seq<Row>)
    requires forall k | 0 <= k < |second| :: second[k].id !in DroppedBy(existing, first)
    ensures Merged(Merged(existing, first), second) == Merged(existing, first + second)
  {
    var big, small, gone := SaveAll(Load(existing), first), Load(Merged(existing, first)), DroppedBy(existing, first);
    hide BookOk, Load, SaveAll, ListingOf, DroppedBy, Others, Dropped;
    BooksReduced(existing, first);
    SaveAllConcat(Load(existing), first, second);
    SaveAllReduced(small, big, gone, second);
    ReducedListing(SaveAll(big, second).order, SaveAll(small, second).rows, SaveAll(big, second).rows, gone);
  }

  predicate DistinctIds(rows: seq<Row>) {
    forall i, j | 0 <= i < j < |rows| :: rows[i].id != rows[j].id
  }

  lemma {:induction false} ListingMember(order: seq<string>, rows: map<string, Row>, row: Row)
    requires forall id | id in rows :: rows[id].id == id
    ensures row in ListingOf(order, rows) <==> row.id in order && row.id in rows && rows[row.id] == row && !Dropped(row)
  {
    hide Dropped;
    if order != [] {
      var n := |order| - 1;
      assert order == order[..n] + [order[n]];
      ListingMember(order[..n], rows, row);
      ListingSnoc(order[..n], order[n], rows);
    }
  }

  lemma {:induction false} NoTouch(rows: seq<Row>, id: string)
    requires forall i | 0 <= i < |rows| :: rows[i].id != id
    ensures Touches(rows, id) == []
  {
    if rows != [] {
      NoTouch(rows[..|rows| - 1], id);
    }
  }

  lemma {:induction false} OneTouch(rows: seq<Row>, k: nat)
    requires DistinctIds(rows) && k < |rows|
    ensures |Touches(rows, rows[k].id)| == 1
  {
    var n := |rows| - 1;
    assert rows == rows[..n] + [rows[n]];
    TouchesSnoc(rows[..n], rows[n], rows[k].id);
    if k == n {
      NoTouch(rows[..n], rows[k].id);
    } else {
      OneTouch(rows[..n], k);
    }
  }

  /** A dropped id that the second batch touches keeps its history only when both are saved at once. */
  lemma TouchedDropped(existing: seq<Row>, first: seq<Row>, second: seq<Row>, k: nat)
    requires DistinctIds(second) && k < |second| && second[k].id in DroppedBy(existing, first)
    ensures Merged(Merged(existing, first), second) != Merged(existing, first + second)
  {
    var big, small, id := SaveAll(Load(existing), first), Load(Merged(existing, first)), second[k].id;
    GoneIs(existing, first, id);
    hide *;
    BooksReduced(existing, first);
    SaveAllConcat(Load(existing), first, second);
    OneTouch(second, k);
    WithHistory(big, second, id);
    WithoutHistory(small, second, id);
    var kept := SaveAll(big, second).rows[id];
    ListingHas(SaveAll(big, second), kept);
    ListingHas(SaveAll(small, second), kept);
    MergedIs(existing, first + second);
    MergedIs(Merged(existing, first), second);
  }

  lemma GoneIs(existing: seq<Row>, first: seq<Row>, id: string)
    requires id in DroppedBy(existing, first)
    ensures id != "" && id in SaveAll(Load(existing), first).rows && id !in Load(Merged(existing, first)).rows
  {
    hide Load, SaveAll, ListingOf, Others, Dropped;
    BooksReduced(existing, first);
  }

  lemma MergedIs(existing: seq<Row>, added: seq<Row>)
    ensures Merged(existing, added) == ListingOf(SaveAll(Load(existing), added).order, SaveAll(Load(existing), added).rows)
  {
  }

  lemma WithHistory(b: Book, rows: seq<Row>, id: string)
    requires BookOk(b) && id in b.rows && |Touches(rows, id)| == 1
    ensures BookOk(SaveAll(b, rows)) && id in SaveAll(b, rows).rows
    ensures var row := SaveAll(b, rows).rows[id]; row.id == id && row.history != []
  {
    hide SaveAll, Touches;
    SaveAllOk(b, rows);
    HistoryIsComplete(b, rows, id);
  }

  lemma WithoutHistory(b: Book, rows: seq<Row>, id: string)
    requires BookOk(b) && id != "" && id !in b.rows && |Touches(rows, id)| == 1
    ensures BookOk(SaveAll(b, rows)) && id in SaveAll(b, rows).rows && SaveAll(b, rows).rows[id].history == []
  {
    hide SaveAll, Touches;
    SaveAllOk(b, rows);
    HistoryIsComplete(b, rows, id);
    NothingCapped();
  }

  lemma ListingHas(b: Book, row: Row)
    requires BookOk(b)
    ensures row in ListingOf(b.order, b.rows) ==> row.id in b.rows && b.rows[row.id] == row
    ensures row.id in b.rows && b.rows[row.id] == row && row.history != [] ==> row in ListingOf(b.order, b.rows)
  {
    hide ListingOf;
    ListingMember(b.order, b.rows, row);
  }

  /** Exactly when saving in two batches is saving in one, for batches that
      name each row once: the second touches no id the first save dropped. */
  lemma WhenMergeActs(existing: seq<Row>, first: seq<Row>, second: seq<Row>)
    requires DistinctIds(second)
    ensures Merged(Merged(existing, first), second) == Merged(existing, first + second)
            <==> forall k | 0 <= k < |second| :: second[k].id !in DroppedBy(existing, first)
  {
    hide Merged, DroppedBy, DistinctIds;
    if forall k | 0 <= k < |second| :: second[k].id !in DroppedBy(existing, first) {
      MergeIsAnAction(existing, first, second);
    } else {
      var k :| 0 <= k < |second| && second[k].id in DroppedBy(existing, first);
      TouchedDropped(existing, first, second, k);
    }
  }

  // ----- What becomes of each row ------------------------------------------------------------

  /** A confirmation, a value of one's own, or a reason that is not blank. */
  predicate SaysSomething(row: Row) {
    row.answer.confirmed || row.answer.override != row.aiDefault
    || exists i :: 0 <= i < |row.answer.reasoning| && !IsSpace(row.answer.reasoning[i])
  }

  predicate Mentions(rows: seq<Row>, id: string) {
    exists i :: 0 <= i < |rows| && rows[i].id == id
  }

  /** The last row of its id. */
  predicate LastOf(rows: seq<Row>, j: nat) {
    j < |rows| && rows[j].id != "" && !Mentions(rows[j + 1..], rows[j].id)
  }

  lemma MentionsSnoc(rows: seq<Row>, row: Row, id: string)
    ensures Mentions(rows + [row], id) <==> Mentions(rows, id) || row.id == id
  {
    var all := rows + [row];
    if i :| 0 <= i < |rows| && rows[i].id == id {
      assert all[i].id == id;
    }
    assert all[|rows|] == row;
  }

  lemma {:induction false} LoadMentions(rows: seq<Row>, id: string)
    requires id != ""
    ensures id in Load(rows).rows <==> Mentions(rows, id)
  {
    if rows != [] {
      var n := |rows| - 1;
      assert rows == rows[..n] + [rows[n]];
      LoadMentions(rows[..n], id);
      MentionsSnoc(rows[..n], rows[n], id);
      hide Mentions;
    }
  }

  lemma {:induction false} SaveMentions(b: Book, rows: seq<Row>, id: string)
    requires id != ""
    ensures id in SaveAll(b, rows).rows <==> id in b.rows || Mentions(rows, id)
  {
    if rows != [] {
      var n := |rows| - 1;
      assert rows == rows[..n] + [rows[n]];
      SaveMentions(b, rows[..n], id);
      MentionsSnoc(rows[..n], rows[n], id);
      hide Mentions, Capped;
    }
  }

  lemma LastOfSnoc(rows: seq<Row>, j: nat)
    requires LastOf(rows, j) && j < |rows| - 1
    ensures LastOf(rows[..|rows| - 1], j) && rows[|rows| - 1].id != rows[j].id
  {
    var n := |rows| - 1;
    assert rows[j + 1..] == rows[..n][j + 1..] + [rows[n]];
    MentionsSnoc(rows[..n][j + 1..], rows[n], rows[j].id);
    hide Mentions;
  }

  /** The last row of an id is what the book holds, with a history if the id was known. */
  lemma {:induction false} LastSaved(b: Book, rows: seq<Row>, j: nat)
    requires LastOf(rows, j)
    ensures rows[j].id in SaveAll(b, rows).rows
    ensures var row, known := SaveAll(b, rows).rows[rows[j].id], rows[j].id in b.rows || Mentions(rows[..j], rows[j].id);
            row == rows[j].(history := row.history) && (row.history != [] <==> known)
  {
    var n := |rows| - 1;
    assert rows == rows[..n] + [rows[n]];
    if j < n {
      LastOfSnoc(rows, j);
      LastSaved(b, rows[..n], j);
      assert rows[..n][..j] == rows[..j];
      hide Mentions, Capped, LastOf;
    } else {
      SaveMentions(b, rows[..n], rows[j].id);
      hide Mentions, SaveAll, LastOf;
      CappedNotEmpty();
      SaveAllSnoc(b, rows[..n], rows[n]);
      hide Capped;
    }
  }

  lemma CappedNotEmpty()
    ensures forall history :: history != [] ==> Capped(history) != []
  {
  }

  lemma {:induction false} NotSaved(b: Book, rows: seq<Row>, id: string)
    requires id != "" && !Mentions(rows, id)
    ensures RowIn(SaveAll(b, rows), id) == RowIn(b, id)
  {
    hide Mentions, Capped;
    if rows != [] {
      var n := |rows| - 1;
      assert rows == rows[..n] + [rows[n]];
      MentionsSnoc(rows[..n], rows[n], id);
      NotSaved(b, rows[..n], id);
    }
  }

  lemma {:induction false} LastLoaded(rows: seq<Row>, j: nat)
    requires LastOf(rows, j)
    ensures RowIn(Load(rows), rows[j].id) == Some(rows[j])
  {
    var n := |rows| - 1;
    if j < n {
      LastOfSnoc(rows, j);
      LastLoaded(rows[..n], j);
    }
  }

  /** A saved row is kept exactly if it says something or its id was known
      before; and it is kept as saved. */
  lemma SavedFate(existing: seq<Row>, added: seq<Row>, j: nat)
    requires LastOf(added, j)
    ensures var id, known := added[j].id, Mentions(existing, added[j].id) || Mentions(added[..j], added[j].id);
            (Mentions(Merged(existing, added), id) <==> SaysSomething(added[j]) || known)
            && forall k | 0 <= k < |Merged(existing, added)| && Merged(existing, added)[k].id == id ::
                 var row := Merged(existing, added)[k]; row == added[j].(history := row.history) && (row.history != [] <==> known)
  {
    var b := SaveAll(Load(existing), added);
    var id := added[j].id;
    LoadOk(existing);
    SaveAllOk(Load(existing), added);
    LoadMentions(existing, id);
    LastSaved(Load(existing), added, j);
    MergedIs(existing, added);
    SaysIs(b.rows[id]);
    SaysSame(added[j], b.rows[id]);
    hide LastOf, SaveAll, Load, Merged, ListingOf, SaysSomething, Dropped;
    ListedIs(b, id);
  }

  lemma SaysIs(row: Row)
    ensures Dropped(row) <==> !SaysSomething(row) && row.history == []
  {
  }

  lemma SaysSame(a: Row, b: Row)
    requires b == a.(history := b.history)
    ensures SaysSomething(a) <==> SaysSomething(b)
  {
    assert a.answer == b.answer && a.aiDefault == b.aiDefault;
  }

  lemma ListedIs(b: Book, id: string)
    requires BookOk(b) && id in b.rows
    ensures Mentions(ListingOf(b.order, b.rows), id) <==> !Dropped(b.rows[id])
    ensures forall k | 0 <= k < |ListingOf(b.order, b.rows)| && ListingOf(b.order, b.rows)[k].id == id ::
              ListingOf(b.order, b.rows)[k] == b.rows[id]
  {
    hide Dropped, ListingOf;
    var listing := ListingOf(b.order, b.rows);
    forall k | 0 <= k < |listing| ensures listing[k].id == id ==> listing[k] == b.rows[id] && !Dropped(b.rows[id]) {
      ListingMember(b.order, b.rows, listing[k]);
      assert listing[k] in listing;
    }
    ListingMember(b.order, b.rows, b.rows[id]);
  }

  /** A stored row that nobody touches stays as it is if it says something or
      remembers something, and goes otherwise. */
  lemma StoredFate(existing: seq<Row>, added: seq<Row>, j: nat)
    requires LastOf(existing, j) && !Mentions(added, existing[j].id)
    ensures var id, merged := existing[j].id, Merged(existing, added);
            (Mentions(merged, id) <==> SaysSomething(existing[j]) || existing[j].history != [])
            && forall k | 0 <= k < |merged| && merged[k].id == id :: merged[k] == existing[j]
  {
    var b := SaveAll(Load(existing), added);
    var id := existing[j].id;
    LoadOk(existing);
    SaveAllOk(Load(existing), added);
    LastLoaded(existing, j);
    NotSaved(Load(existing), added, id);
    MergedIs(existing, added);
    SaysIs(existing[j]);
    assert id in b.rows && b.rows[id] == existing[j];
    hide LastOf, SaveAll, Load, Merged, ListingOf, SaysSomething, Dropped, Mentions;
    ListedIs(b, id);
  }

  // ----- The order of rows ------------------------------------------------------------------------

  /** Id a was seen before id b. */
  predicate SeenBefore(rows: seq<Row>, a: string, b: string) {
    exists i :: 0 <= i < |rows| && rows[i].id == a && forall m | 0 <= m <= i :: rows[m].id != b
  }

  ghost predicate OrderIs(b: Book, seen: seq<Row>) {
    (forall id :: id in b.order <==> id != "" && Mentions(seen, id)) && (forall id :: id in b.rows <==> id in b.order)
    && forall p, q | 0 <= p < q < |b.order| :: SeenBefore(seen, b.order[p], b.order[q])
  }

  lemma SeenSnoc(rows: seq<Row>, row: Row, a: string, b: string)
    ensures SeenBefore(rows, a, b) ==> SeenBefore(rows + [row], a, b)
    ensures Mentions(rows, a) && !Mentions(rows, b) ==> SeenBefore(rows + [row], a, b)
  {
    var all := rows + [row];
    if i :| 0 <= i < |rows| && rows[i].id == a && forall m | 0 <= m <= i :: rows[m].id != b {
      assert all[i].id == a && forall m | 0 <= m <= i :: all[m] == rows[m];
    }
    if Mentions(rows, a) && !Mentions(rows, b) {
      var i :| 0 <= i < |rows| && rows[i].id == a;
      assert all[i].id == a && forall m | 0 <= m <= i :: all[m] == rows[m];
    }
  }

  lemma OrderPut(b: Book, seen: seq<Row>, row: Row, kept: Row)
    requires OrderIs(b, seen) && row.id != "" && kept.id == row.id
    ensures OrderIs(Put(b, kept), seen + [row])
  {
    hide Mentions, SeenBefore;
    var after := Put(b, kept);
    forall id ensures Mentions(seen + [row], id) <==> Mentions(seen, id) || id == row.id {
      MentionsSnoc(seen, row, id);
    }
    forall p, q | 0 <= p < q < |after.order| ensures SeenBefore(seen + [row], after.order[p], after.order[q]) {
      assert after.order[p] == b.order[p] && b.order[p] in b.order;
      SeenSnoc(seen, row, after.order[p], after.order[q]);
    }
  }

  lemma OrderSkip(b: Book, seen: seq<Row>, row: Row)
    requires OrderIs(b, seen) && row.id == ""
    ensures OrderIs(b, seen + [row])
  {
    hide Mentions, SeenBefore;
    forall id ensures Mentions(seen + [row], id) <==> Mentions(seen, id) || id == row.id {
      MentionsSnoc(seen, row, id);
    }
    forall p, q | 0 <= p < q < |b.order| ensures SeenBefore(seen + [row], b.order[p], b.order[q]) {
      SeenSnoc(seen, row, b.order[p], b.order[q]);
    }
  }

  lemma {:induction false} LoadOrder(rows: seq<Row>)
    ensures OrderIs(Load(rows), rows)
  {
    hide OrderIs, Put;
    if rows == [] {
      NothingSeen();
    } else {
      var n := |rows| - 1;
      assert rows == rows[..n] + [rows[n]];
      LoadOrder(rows[..n]);
      if rows[n].id == "" {
        OrderSkip(Load(rows[..n]), rows[..n], rows[n]);
      } else {
        OrderPut(Load(rows[..n]), rows[..n], rows[n], rows[n]);
      }
    }
  }

  lemma NothingSeen()
    ensures OrderIs(Load([]), [])
  {
  }

  lemma {:induction false} SaveOrder(b: Book, seen: seq<Row>, rows: seq<Row>)
    requires OrderIs(b, seen)
    ensures OrderIs(SaveAll(b, rows), seen + rows)
  {
    hide OrderIs, Put, Capped;
    if rows == [] {
      assert seen + rows == seen;
    } else {
      var n := |rows| - 1;
      var before, row := SaveAll(b, rows[..n]), rows[n];
      assert seen + rows == seen + rows[..n] + [row];
      SaveOrder(b, seen, rows[..n]);
      if row.id == "" {
        OrderSkip(before, seen + rows[..n], row);
      } else if row.id in before.rows {
        OrderPut(before, seen + rows[..n], row, row.(history := Capped([before.rows[row.id].answer] + before.rows[row.id].history)));
      } else {
        OrderPut(before, seen + rows[..n], row, row.(history := []));
      }
    }
  }

  /** A listing follows the order of its ids. */
  lemma {:induction false} ListingOrder(order: seq<string>, rows: map<string, Row>, x: nat, y: nat)
    requires forall id | id in rows :: rows[id].id == id
    requires x < y < |ListingOf(order, rows)|
    ensures exists p, q :: 0 <= p < q < |order| && order[p] == ListingOf(order, rows)[x].id && order[q] == ListingOf(order, rows)[y].id
  {
    hide Dropped;
    var n := |order| - 1;
    var init := ListingOf(order[..n], rows);
    assert order == order[..n] + [order[n]];
    ListingSnoc(order[..n], order[n], rows);
    if y < |init| {
      ListingOrder(order[..n], rows, x, y);
      var p, q :| 0 <= p < q < n && order[..n][p] == init[x].id && order[..n][q] == init[y].id;
      assert order[p] == init[x].id && order[q] == init[y].id;
    } else {
      assert init[x] in init;
      ListingMember(order[..n], rows, init[x]);
      var p :| 0 <= p < n && order[..n][p] == init[x].id;
      assert order[p] == ListingOf(order, rows)[x].id && order[n] == ListingOf(order, rows)[y].id;
    }
  }

  /** The merged rows stand in the order in which their ids were first seen, each id once. */
  lemma MergedOrder(existing: seq<Row>, added: seq<Row>, x: nat, y: nat)
    requires x < y < |Merged(existing, added)|
    ensures SeenBefore(existing + added, Merged(existing, added)[x].id, Merged(existing, added)[y].id)
  {
    hide *;
    var b := SaveAll(Load(existing), added);
    MergedIs(existing, added);
    LoadOrder(existing);
    SaveOrder(Load(existing), existing, added);
    LoadOk(existing);
    SaveAllOk(Load(existing), added);
    OwnIds(b);
    ListingOrder(b.order, b.rows, x, y);
    OrderSays(b, existing + added);
  }

  lemma OwnIds(b: Book)
    requires BookOk(b)
    ensures forall id | id in b.rows :: b.rows[id].id == id
  {
  }

  lemma OrderSays(b: Book, seen: seq<Row>)
    requires OrderIs(b, seen)
    ensures forall p, q | 0 <= p < q < |b.order| :: SeenBefore(seen, b.order[p], b.order[q])
  {
    hide SeenBefore, Mentions;
  }
}
