/**
 The two-row transcript store of apps/ingest/sources.py and the cost ratchet of
 apps/ingest/live_ingest.py, for one session.
 */
module TranscriptStore {
  import opened Options
  import opened Transcript
  import opened Attribution
  import opened Registry
  import opened Lines
  import Breakdown

  /** A canopy turn as ace-web recorded it. */
  datatype TurnRecord = TurnRecord(id: string, complete: bool)

  /** The cache row: the turn ids it was built from and the composed bytes. */
  datatype CanopyRow = CanopyRow(turnIds: seq<string>, raw: string)

  datatype TranscriptRead = TranscriptRead(raw: Option<string>, reason: string, complete: bool)

  /** What the outside answers during one call: each turn's transcript, None if
      the fetch fails, and whether the newest turn may still be growing. */
  datatype World = World(transcripts: map<string, string>, provisional: bool) {
    function Fetch(id: string): Option<string> {
      if id in transcripts then Some(transcripts[id]) else None
    }
  }

  function Ids(turns: seq<TurnRecord>): (ids: seq<string>)
    ensures |ids| == |turns|
  {
    seq(|turns|, i requires 0 <= i < |turns| => turns[i].id)
  }

  /** The transcripts of all turns, or None if one is missing or known to be short. */
  function Compose(turns: seq<TurnRecord>, w: World): Option<string> {
    if turns == [] then Some("")
    else
      var n := |turns| - 1;
      var before, blob := Compose(turns[..n], w), w.Fetch(turns[n].id);
      if before.None? || blob.None? || (blob.value == "" && turns[n].complete) then None
      else Some(before.value + blob.value)
  }

  lemma ComposeNext(turns: seq<TurnRecord>, w: World, n: nat)
    requires n < |turns|
    ensures Compose(turns[..n + 1], w) ==
            var before, blob := Compose(turns[..n], w), w.Fetch(turns[n].id);
            if before.None? || blob.None? || (blob.value == "" && turns[n].complete) then None else Some(before.value + blob.value)
  {
    assert turns[..n + 1][..n] == turns[..n];
  }

  /** One turn's transcript is itself, and the transcripts of turns in a row stand in a row. */
  lemma {:induction false} ComposeConcat(a: seq<TurnRecord>, b: seq<TurnRecord>, w: World)
    ensures Compose(a + b, w) ==
            if Compose(a, w).Some? && Compose(b, w).Some? then Some(Compose(a, w).value + Compose(b, w).value) else None
  {
    if b == [] {
      assert a + b == a && Compose(b, w) == Some("");
      assert Compose(a, w).Some? ==> Compose(a, w).value + "" == Compose(a, w).value;
    } else {
      var n := |b| - 1;
      ComposeConcat(a, b[..n], w);
      assert (a + b)[..|a| + n] == a + b[..n] && (a + b)[|a| + n] == b[n];
      var x, y, z := Compose(a, w), Compose(b[..n], w), w.Fetch(b[n].id);
      assert x.Some? && y.Some? && z.Some? ==> x.value + y.value + z.value == x.value + (y.value + z.value);
    }
  }

  lemma ComposeOne(turn: TurnRecord, w: World)
    ensures Compose([turn], w) == if turn.id in w.transcripts && (w.transcripts[turn.id] != "" || !turn.complete)
                                  then Some(w.transcripts[turn.id]) else None
  {
    assert [turn][..0] == [];
    assert turn.id in w.transcripts ==> "" + w.transcripts[turn.id] == w.transcripts[turn.id];
  }

  /** All or nothing: a refused turn refuses the whole compose. */
  lemma {:induction false} ComposesAll(turns: seq<TurnRecord>, w: World)
    ensures Compose(turns, w).Some? <==>
            forall i | 0 <= i < |turns| :: w.Fetch(turns[i].id).Some? && (turns[i].complete ==> w.Fetch(turns[i].id).value != "")
  {
    if turns != [] {
      ComposesAll(turns[..|turns| - 1], w);
      assert turns == turns[..|turns| - 1] + [turns[|turns| - 1]];
    }
  }

  lemma {:induction false} FailsLater(turns: seq<TurnRecord>, w: World, n: nat)
    requires n <= |turns| && Compose(turns[..n], w).None?
    ensures Compose(turns, w).None?
    decreases |turns| - n
  {
    if n < |turns| {
      ComposeNext(turns, w, n);
      FailsLater(turns, w, n + 1);
    } else {
      assert turns[..n] == turns;
    }
  }

  /** What is stored of a session, apart from its cost. */
  datatype Rows = Rows(local: Option<string>, canopy: Option<CanopyRow>, turns: seq<TurnRecord>, dispatched: bool) {
    /** `_local_prefix`: what the session produced locally. */
    function Local(): string {
      GetOr(local, "")
    }

    /** The bytes a fresh fetch would seat. */
    function Composed(w: World): Option<string> {
      var tail := Compose(turns, w);
      if turns == [] || tail.None? then None else Some(Local() + tail.value)
    }

    /** The cached bytes may not be served without a refetch. */
    predicate Stale(w: World, force: bool) {
      force || canopy.None? || canopy.value.turnIds != Ids(turns) || !(Local() <= canopy.value.raw) || w.provisional
    }

    /** A read asks canopy. */
    predicate Asks(w: World, force: bool) {
      dispatched && Stale(w, force) && turns != []
    }

    /** A read asks canopy and seats what it answers. */
    predicate Seats(w: World, force: bool) {
      Asks(w, force) && Composed(w).Some?
    }

    /** The rows after a read. */
    function Refreshed(w: World, force: bool): Rows {
      if Seats(w, force) then this.(canopy := Some(CanopyRow(Ids(turns), Composed(w).value))) else this
    }

    /** What a read serves, and whether it is the whole run. */
    function Served(w: World, force: bool): TranscriptRead {
      var whole := !Asks(w, force) || Composed(w).Some?;
      var row := Refreshed(w, force).canopy;
      var raw := if row.Some? then Some(row.value.raw) else if dispatched && Local() == "" then None else local;
      TranscriptRead(raw, if raw.Some? then "" else if whole then "no-raw-jsonl" else "canopy-unreachable", whole)
    }

    /** The local row after a capture. */
    function With(capture: string): Rows {
      if capture == "" then this else this.(local := Some(Local() + capture))
    }
  }

  /** A read without a refetch starts with the current local prefix and covers exactly the current turns. */
  lemma UnaskedIsCurrent(rows: Rows, w: World, force: bool)
    requires rows.dispatched && rows.turns != [] && !rows.Asks(w, force)
    ensures rows.canopy.Some? && rows.canopy.value.turnIds == Ids(rows.turns)
    ensures rows.Served(w, force).raw == Some(rows.canopy.value.raw) && rows.Local() <= rows.canopy.value.raw
    ensures rows.Served(w, force).complete
  {
  }

  function Billable(cost: Option<Breakdown.Report>): nat {
    match cost
    case None => 0
    case Some(report) => report.totals.Billable()
  }

  /** A read is fit to derive a cost from. */
  predicate Usable(read: TranscriptRead) {
    read.complete && read.raw.Some? && read.raw.value != ""
  }

  /** The transcript canopy holds beside the local part. */
  function Tail(rows: Rows, w: World): string {
    if rows.dispatched && rows.turns != [] then GetOr(Compose(rows.turns, w), "") else ""
  }

  /** The capture is appended to what a read serves: newline-terminated parts, and
      either no canopy turns or a fetch that re-seats the cache. */
  predicate Appends(rows: Rows, w: World, capture: string) {
    capture != "" && Terminated(rows.Local())
    && if rows.dispatched && rows.turns != [] then rows.With(capture).Seats(w, false) && Terminated(capture) else rows.canopy.None?
  }

  lemma AppendServes(rows: Rows, w: World, capture: string)
    requires Appends(rows, w, capture)
    ensures var read := rows.With(capture).Served(w, false);
            Usable(read) && read.complete && read.raw == Some(rows.Local() + capture + Tail(rows, w)) && read.raw.value != ""
    ensures Terminated(rows.Local()) && (Tail(rows, w) == "" || Terminated(capture))
  {
    hide Compose;
    assert rows.Local() + capture + "" == rows.Local() + capture;
  }

  class Store {
    const index: Index
    const decode: string -> Line
    var localRow: Option<string>
    var canopyRow: Option<CanopyRow>
    var turns: seq<TurnRecord>
    var dispatched: bool
    var cost: Option<Breakdown.Report>

    constructor (index: Index, decode: string -> Line)
      ensures this.index == index && this.decode == decode
      ensures Now() == Rows(None, None, [], false) && cost.None?
    {
      this.index, this.decode := index, decode;
      localRow, canopyRow, turns, dispatched, cost := None, None, [], false, None;
    }

    function Now(): Rows
      reads this`localRow, this`canopyRow, this`turns, this`dispatched
    {
      Rows(localRow, canopyRow, turns, dispatched)
    }

    method RefreshCanopyCache(w: World) returns (seated: bool)
      modifies this`canopyRow
      ensures seated <==> old(Now().Composed(w)).Some?
      ensures canopyRow == if seated then Some(CanopyRow(Ids(turns), old(Now().Composed(w)).value)) else old(canopyRow)
    {
      if turns == [] {
        return false;
      }
      var blobs := "";
      for n := 0 to |turns|
        invariant canopyRow == old(canopyRow)
        invariant Compose(turns[..n], w) == Some(blobs)
      {
        ComposeNext(turns, w, n);
        assert turns[..n] + turns[n..] == turns;
        var blob := w.Fetch(turns[n].id);
        if blob.None? || (blob.value == "" && turns[n].complete) {
          FailsLater(turns, w, n + 1);
          return false;
        }
        blobs := blobs + blob.value;
      }
      assert turns[..|turns|] == turns;
      canopyRow := Some(CanopyRow(Ids(turns), GetOr(localRow, "") + blobs));
      return true;
    }

    /** `read_session_transcript`. `refetched` tells whether canopy was asked. */
    method Read(w: World, force: bool) returns (read: TranscriptRead, refetched: bool)
      modifies this`canopyRow
      ensures refetched <==>
              (dispatched && turns != []
               && (force || w.provisional || old(canopyRow).None? || old(canopyRow).value.turnIds != Ids(turns)
                   || !(GetOr(localRow, "") <= old(canopyRow).value.raw)))
      ensures refetched && read.complete ==>
                Compose(turns, w).Some? && read.raw == Some(GetOr(localRow, "") + Compose(turns, w).value)
      ensures Now() == old(Now()).Refreshed(w, force) && read == old(Now()).Served(w, force)
      ensures read.complete <==> !(refetched && old(Now()).Composed(w).None?)
      ensures !dispatched && canopyRow.None? ==> read.raw == localRow
      ensures dispatched ==> read.raw == if canopyRow.Some? then Some(canopyRow.value.raw)
                                         else if Now().Local() != "" then Some(Now().Local()) else None
      ensures read.reason == if read.raw.Some? then "" else if read.complete then "no-raw-jsonl" else "canopy-unreachable"
      ensures dispatched && turns != [] && !refetched ==>
                canopyRow.Some? && canopyRow.value.turnIds == Ids(turns) && read.raw.Some? && Now().Local() <= read.raw.value
    {
      refetched := false;
      if !dispatched {
        var raw := if canopyRow.Some? then Some(canopyRow.value.raw) else localRow;
        return TranscriptRead(raw, if raw.Some? then "" else "no-raw-jsonl", true), false;
      }
      var wanted, prefix := Ids(turns), GetOr(localRow, "");
      var stale := force || canopyRow.None? || canopyRow.value.turnIds != wanted
                   || !(prefix <= canopyRow.value.raw) || w.provisional;
      var failed := false;
      if stale && wanted != [] {
        refetched := true;
        var seated := RefreshCanopyCache(w);
        failed := !seated;
      }
      if canopyRow.Some? {
        read := TranscriptRead(Some(canopyRow.value.raw), "", !failed);
      } else if prefix != "" {
        read := TranscriptRead(Some(prefix), "", !failed);
      } else {
        read := TranscriptRead(None, if failed then "canopy-unreachable" else "no-raw-jsonl", !failed);
      }
    }

    /** The report is what the aggregator makes of these bytes. */
    ghost predicate CostOf(raw: string, report: Breakdown.Report) {
      Breakdown.BreakdownOk(index, EventsOf(Decoded(SplitLines(raw), decode)), report)
    }

    /** The read replaces the stored cost. */
    predicate Replaces(read: TranscriptRead, stored: Option<Breakdown.Report>, force: bool) {
      Usable(read) && (force || Billable(stored) <= Totals(read.raw.value, decode).Billable())
    }

    /** `recompute_cost_from_source`, the only writer of the stored cost. */
    method RecomputeCost(w: World, forceRefresh: bool, force: bool)
      modifies this`canopyRow, this`cost
      ensures Now() == old(Now()).Refreshed(w, forceRefresh)
      ensures var read := old(Now()).Served(w, forceRefresh);
              if Replaces(read, old(cost), force) then cost.Some? && CostOf(read.raw.value, cost.value) else cost == old(cost)
      ensures var read := old(Now()).Served(w, forceRefresh);
              if !read.complete || read.raw.None? || read.raw.value == "" then cost == old(cost)
              else if force || Billable(old(cost)) <= Totals(read.raw.value, decode).Billable()
              then cost.Some? && CostOf(read.raw.value, cost.value)
              else cost == old(cost)
      ensures !force ==> Billable(cost) >= Billable(old(cost))
    {
      hide *;
      var read, _ := Read(w, forceRefresh);
      ReplacesIs(read, cost, force);
      if read.raw.None? || read.raw.value == "" || !read.complete {
        return;
      }
      var events := ExtractCostEvents(Decoded(SplitLines(read.raw.value), decode));
      var report := Breakdown.Aggregate(index, events);
      Derived(read.raw.value, report);
      if !force && Billable(cost) > Billable(Some(report)) {
        return;
      }
      cost := Some(report);
    }

    lemma ReplacesIs(read: TranscriptRead, stored: Option<Breakdown.Report>, force: bool)
      ensures Replaces(read, stored, force) <==>
                read.complete && read.raw.Some? && read.raw.value != ""
                && (force || Billable(stored) <= Totals(read.raw.value, decode).Billable())
    {
    }

    lemma CostTotals(raw: string, report: Breakdown.Report)
      requires CostOf(raw, report)
      ensures report.totals == Totals(raw, decode)
    {
      hide *;
      CostIs(raw, report);
      Derived(raw, report);
    }

    lemma CostIs(raw: string, report: Breakdown.Report)
      requires CostOf(raw, report)
      ensures Breakdown.BreakdownOk(index, EventsOf(Decoded(SplitLines(raw), decode)), report)
    {
      hide Breakdown.BreakdownOk, SplitLines, EventsOf, Decoded;
    }

    lemma Derived(raw: string, report: Breakdown.Report)
      requires Breakdown.BreakdownOk(index, EventsOf(Decoded(SplitLines(raw), decode)), report)
      ensures CostOf(raw, report) && report.totals == Totals(raw, decode)
      ensures Billable(Some(report)) == Totals(raw, decode).Billable()
    {
      hide SplitLines, EventsOf, Decoded, Breakdown.PhasesReported, EventTotals;
      var events := EventsOf(Decoded(SplitLines(raw), decode));
      EventTotalsIsTotal(events, |events|);
      assert events[..|events|] == events;
    }

    /** `store_session_transcript`: the turn's capture is appended to the local row. */
    method StoreTranscript(w: World, capture: string)
      modifies this`localRow, this`canopyRow, this`cost
      ensures Now() == if capture == "" then old(Now()) else old(Now()).With(capture).Refreshed(w, false)
      ensures var read := old(Now()).With(capture).Served(w, false);
              if capture != "" && Replaces(read, old(cost), false) then cost.Some? && CostOf(read.raw.value, cost.value)
              else cost == old(cost)
      ensures Billable(cost) >= Billable(old(cost))
      ensures Appends(old(Now()), w, capture) && Billable(old(cost)) <= Totals(old(Now()).Local() + Tail(old(Now()), w), decode).Billable() ==>
                cost.Some?
                && cost.value.totals == Totals(old(Now()).Local(), decode).Plus(Totals(capture, decode)).Plus(Totals(Tail(old(Now()), w), decode))
    {
      if capture == "" {
        return;
      }
      ghost var rows, stored := Now(), cost;
      localRow := Some(GetOr(localRow, "") + capture);
      hide *;
      RecomputeCost(w, false, false);
      if Appends(rows, w, capture) && Billable(stored) <= Totals(rows.Local() + Tail(rows, w), decode).Billable() {
        HonestAppend(rows, w, capture, stored);
        CostTotals(rows.With(capture).Served(w, false).raw.value, cost.value);
      }
    }

    /** An honest append passes the ratchet: the new figure is the old bytes'
        plus the capture's, canopy's tail included. */
    lemma HonestAppend(rows: Rows, w: World, capture: string, stored: Option<Breakdown.Report>)
      requires Appends(rows, w, capture) && Billable(stored) <= Totals(rows.Local() + Tail(rows, w), decode).Billable()
      ensures var read := rows.With(capture).Served(w, false);
              Replaces(read, stored, false)
              && Totals(read.raw.value, decode) ==
                   Totals(rows.Local(), decode).Plus(Totals(capture, decode)).Plus(Totals(Tail(rows, w), decode))
    {
      hide *;
      var a, b, c := rows.Local(), capture, Tail(rows, w);
      AppendServes(rows, w, capture);
      InsertTotals(a, b, c);
      ReplacesIs(rows.With(capture).Served(w, false), stored, false);
    }

    /** Inserting terminated text adds its totals. */
    lemma InsertTotals(a: string, b: string, c: string)
      requires Terminated(a) && (c == "" || Terminated(b))
      ensures Totals(a + b + c, decode) == Totals(a, decode).Plus(Totals(b, decode)).Plus(Totals(c, decode))
      ensures Totals(a + c, decode).Billable() <= Totals(a + b + c, decode).Billable()
    {
      hide Totals;
      assert a + b + c == a + (b + c);
      TotalsConcat(a, b + c, decode);
      TotalsConcat(a, c, decode);
      if c == "" {
        assert b + c == b + "";
        NoTotals();
        PlusEmpty(Totals(b, decode));
        assert b + "" == b;
      } else {
        TotalsConcat(b, c, decode);
      }
      PlusAssoc(Totals(a, decode), Totals(b, decode), Totals(c, decode));
      PlusEmpty(Totals(a, decode).Plus(Totals(b, decode)));
      BillableSum(Totals(a, decode), Totals(c, decode));
      BillableSum(Totals(a, decode), Totals(b, decode));
      BillableSum(Totals(a, decode).Plus(Totals(b, decode)), Totals(c, decode));
    }

    lemma NoTotals()
      ensures Totals("", decode) == EmptyTokens
    {
    }
  }

  // ----- Over any sequence of events -------------------------------------------------

  datatype Op =
    | Capture(text: string)              // a local turn ends
    | Dispatch                           // the session is handed to canopy
    | TurnsChange(turns: seq<TurnRecord>)
    | View(force: bool)
    | Recompute(forceRefresh: bool, force: bool)
  {
    predicate Reads() {
      (Capture? && text != "") || View? || Recompute?
    }

    /** The read bypasses the cache. */
    predicate Refreshes() {
      (View? && force) || (Recompute? && forceRefresh)
    }

    predicate Derives() {
      (Capture? && text != "") || Recompute?
    }

    predicate Overrides() {
      Recompute? && force
    }

    /** What the event changes before it reads. */
    function Enter(rows: Rows): Rows {
      match this
      case Capture(text) => rows.With(text)
      case Dispatch => rows.(dispatched := true)
      case TurnsChange(turns) => rows.(turns := turns)
      case _ => rows
    }
  }

  /** The rows after all events; worlds[j] is what the outside answers during event j. */
  function RowsAfter(start: Rows, ops: seq<Op>, worlds: seq<World>): Rows
    requires |ops| == |worlds|
    decreases |ops|, 0
  {
    if ops == [] then start
    else
      var rows := RowsAtRead(start, ops, worlds, |ops| - 1);
      if ops[|ops| - 1].Reads() then rows.Refreshed(worlds[|ops| - 1], ops[|ops| - 1].Refreshes()) else rows
  }

  /** The rows that event j's read finds. */
  function RowsAtRead(start: Rows, ops: seq<Op>, worlds: seq<World>, j: nat): Rows
    requires j < |ops| == |worlds|
    decreases j, 1
  {
    ops[j].Enter(RowsAfter(start, ops[..j], worlds[..j]))
  }

  /** What event j reads. */
  function ReadAt(start: Rows, ops: seq<Op>, worlds: seq<World>, j: nat): TranscriptRead
    requires j < |ops| == |worlds|
  {
    RowsAtRead(start, ops, worlds, j).Served(worlds[j], ops[j].Refreshes())
  }

  function Captures(ops: seq<Op>): string {
    if ops == [] then "" else Captures(ops[..|ops| - 1]) + if ops[|ops| - 1].Capture? then ops[|ops| - 1].text else ""
  }

  /** The turns as last recorded. */
  function TurnsAt(start: seq<TurnRecord>, ops: seq<Op>): seq<TurnRecord> {
    if ops == [] then start
    else if ops[|ops| - 1].TurnsChange? then ops[|ops| - 1].turns
    else TurnsAt(start, ops[..|ops| - 1])
  }

  /** The local row is exactly the concatenation of the captures. */
  lemma {:induction false} LocalIsCaptures(start: Rows, ops: seq<Op>, worlds: seq<World>)
    requires |ops| == |worlds|
    ensures RowsAfter(start, ops, worlds).Local() == start.Local() + Captures(ops)
    ensures RowsAfter(start, ops, worlds).turns == TurnsAt(start.turns, ops)
  {
    hide Compose;
    if ops != [] {
      LocalIsCaptures(start, ops[..|ops| - 1], worlds[..|ops| - 1]);
    }
  }

  lemma ReadsCaptures(start: Rows, ops: seq<Op>, worlds: seq<World>, j: nat)
    requires j < |ops| == |worlds| && ops[j].Reads()
    ensures RowsAtRead(start, ops, worlds, j).Local() == start.Local() + Captures(ops[..j + 1])
    ensures RowsAtRead(start, ops, worlds, j).turns == TurnsAt(start.turns, ops[..j])
  {
    LocalIsCaptures(start, ops[..j], worlds[..j]);
    assert ops[..j + 1][..j] == ops[..j] && ops[..j + 1][j] == ops[j];
  }

  ghost predicate SeatsAt(start: Rows, ops: seq<Op>, worlds: seq<World>, j: nat)
    requires j < |ops| == |worlds|
  {
    ops[j].Reads() && RowsAtRead(start, ops, worlds, j).Seats(worlds[j], ops[j].Refreshes())
  }

  /** The local part as of event j, then the transcript of every turn recorded
      by then, in turn order, as fetched during event j. */
  ghost predicate SeatedBy(start: Rows, ops: seq<Op>, worlds: seq<World>, j: nat, row: CanopyRow)
    requires j < |ops| == |worlds|
  {
    var turns := TurnsAt(start.turns, ops[..j]);
    turns != [] && Compose(turns, worlds[j]).Some?
    && row == CanopyRow(Ids(turns), start.Local() + Captures(ops[..j + 1]) + Compose(turns, worlds[j]).value)
  }

  /** Event j seated this row and no later event another. */
  ghost predicate LastSeatedBy(start: Rows, ops: seq<Op>, worlds: seq<World>, j: nat, row: CanopyRow)
    requires j < |ops| == |worlds|
  {
    SeatsAt(start, ops, worlds, j) && SeatedBy(start, ops, worlds, j, row)
    && forall k | j < k < |ops| :: !SeatsAt(start, ops, worlds, k)
  }

  /** The canopy row is what the last event that seated one made of its local
      part, its turns and its fetches; if none did, the row is the old one. */
  lemma {:induction false} CanopyIsLastSeated(start: Rows, ops: seq<Op>, worlds: seq<World>)
    requires |ops| == |worlds|
    ensures var row := RowsAfter(start, ops, worlds).canopy;
            if exists j :: 0 <= j < |ops| && SeatsAt(start, ops, worlds, j)
            then row.Some? && exists j :: 0 <= j < |ops| && LastSeatedBy(start, ops, worlds, j, row.value)
            else row == start.canopy
  {
    if ops != [] {
      var n := |ops| - 1;
      hide SeatsAt, RowsAfter, SeatedBy, LastSeatedBy;
      CanopyIsLastSeated(start, ops[..n], worlds[..n]);
      CanopyStep(start, ops, worlds);
      if SeatsAt(start, ops, worlds, n) {
        NewestSeat(start, ops, worlds);
      } else {
        var row := RowsAfter(start, ops[..n], worlds[..n]).canopy;
        forall j | 0 <= j < n ensures SeatsAt(start, ops, worlds, j) == SeatsAt(start, ops[..n], worlds[..n], j) {
          SeatsAlike(start, ops, worlds, n, j);
        }
        if j :| 0 <= j < n && SeatsAt(start, ops, worlds, j) {
          assert SeatsAt(start, ops[..n], worlds[..n], j);
          var k :| 0 <= k < n && LastSeatedBy(start, ops[..n], worlds[..n], k, row.value);
          StaysSeated(start, ops, worlds, k, row.value);
        }
      }
    }
  }

  lemma CanopyStep(start: Rows, ops: seq<Op>, worlds: seq<World>)
    requires |ops| == |worlds| && ops != []
    ensures !SeatsAt(start, ops, worlds, |ops| - 1) ==>
              RowsAfter(start, ops, worlds).canopy == RowsAfter(start, ops[..|ops| - 1], worlds[..|ops| - 1]).canopy
  {
    hide Compose;
  }

  lemma NewestSeat(start: Rows, ops: seq<Op>, worlds: seq<World>)
    requires |ops| == |worlds| && ops != [] && SeatsAt(start, ops, worlds, |ops| - 1)
    ensures RowsAfter(start, ops, worlds).canopy.Some?
    ensures LastSeatedBy(start, ops, worlds, |ops| - 1, RowsAfter(start, ops, worlds).canopy.value)
  {
    hide Compose, RowsAtRead, TurnsAt, Captures;
    ReadsCaptures(start, ops, worlds, |ops| - 1);
  }

  lemma SeatsAlike(start: Rows, ops: seq<Op>, worlds: seq<World>, n: nat, j: nat)
    requires j < n <= |ops| == |worlds|
    ensures SeatsAt(start, ops, worlds, j) == SeatsAt(start, ops[..n], worlds[..n], j)
    ensures forall row :: SeatedBy(start, ops, worlds, j, row) == SeatedBy(start, ops[..n], worlds[..n], j, row)
    ensures ReadAt(start, ops, worlds, j) == ReadAt(start, ops[..n], worlds[..n], j)
  {
    hide RowsAfter, Compose, Captures, TurnsAt;
    assert ops[..n][..j] == ops[..j] && worlds[..n][..j] == worlds[..j] && ops[..n][..j + 1] == ops[..j + 1];
  }

  lemma StaysSeated(start: Rows, ops: seq<Op>, worlds: seq<World>, j: nat, row: CanopyRow)
    requires |ops| == |worlds| && j + 1 < |ops| && !SeatsAt(start, ops, worlds, |ops| - 1)
    requires LastSeatedBy(start, ops[..|ops| - 1], worlds[..|ops| - 1], j, row)
    ensures LastSeatedBy(start, ops, worlds, j, row)
  {
    hide SeatsAt, SeatedBy;
    var n := |ops| - 1;
    SeatsAlike(start, ops, worlds, n, j);
    forall k | j < k < |ops| ensures !SeatsAt(start, ops, worlds, k) {
      if k < n {
        SeatsAlike(start, ops, worlds, n, k);
      }
    }
  }

  /** In a session that starts without a canopy row, every read serves the local
      part or the whole of what some event seated. */
  lemma ReadsAreSeated(start: Rows, ops: seq<Op>, worlds: seq<World>, j: nat)
    requires j < |ops| == |worlds| && ops[j].Reads() && start.canopy.None?
    ensures var raw := ReadAt(start, ops, worlds, j).raw;
            raw.None? || raw.value == start.Local() + Captures(ops[..j + 1])
            || exists i, row :: 0 <= i <= j && SeatedBy(start, ops, worlds, i, row) && raw.value == row.raw
  {
    hide *;
    var head, answers := ops[..j + 1], worlds[..j + 1];
    var row := RowsAfter(start, head, answers).canopy;
    ServesRow(start, ops, worlds, j);
    ReadsCaptures(start, ops, worlds, j);
    CanopyIsLastSeated(start, head, answers);
    if exists i :: 0 <= i < |head| && SeatsAt(start, head, answers, i) {
      var k :| 0 <= k < |head| && LastSeatedBy(start, head, answers, k, row.value);
      LastIsSeated(start, head, answers, k, row.value);
      SeatsAlike(start, ops, worlds, j + 1, k);
      assert SeatedBy(start, ops, worlds, k, row.value);
    }
  }

  /** A forced read, or one while the newest turn may still grow, serves the local
      part and every turn's transcript as fetched now, or it is not complete. */
  lemma FreshReads(start: Rows, ops: seq<Op>, worlds: seq<World>, j: nat)
    requires j < |ops| == |worlds| && ops[j].Reads()
    requires Dispatched(start, ops[..j]) && TurnsAt(start.turns, ops[..j]) != []
    requires worlds[j].provisional || (ops[j].View? && ops[j].force) || (ops[j].Recompute? && ops[j].forceRefresh)
    ensures var read, tail := ReadAt(start, ops, worlds, j), Compose(TurnsAt(start.turns, ops[..j]), worlds[j]);
            read.complete == tail.Some?
            && (tail.Some? ==> read.raw == Some(start.Local() + Captures(ops[..j + 1]) + tail.value))
  {
    hide Compose;
    ReadsCaptures(start, ops, worlds, j);
    DispatchedIs(start, ops[..j], worlds[..j]);
    hide RowsAfter, Captures, TurnsAt;
  }

  /** The session has been handed to canopy. */
  ghost predicate Dispatched(start: Rows, ops: seq<Op>) {
    start.dispatched || exists j :: 0 <= j < |ops| && ops[j].Dispatch?
  }

  lemma {:induction false} DispatchedIs(start: Rows, ops: seq<Op>, worlds: seq<World>)
    requires |ops| == |worlds|
    ensures RowsAfter(start, ops, worlds).dispatched == Dispatched(start, ops)
  {
    hide Compose;
    if ops != [] {
      var n := |ops| - 1;
      DispatchedIs(start, ops[..n], worlds[..n]);
      assert ops == ops[..n] + [ops[n]];
    }
  }

  lemma LastIsSeated(start: Rows, ops: seq<Op>, worlds: seq<World>, j: nat, row: CanopyRow)
    requires j < |ops| == |worlds| && LastSeatedBy(start, ops, worlds, j, row)
    ensures SeatedBy(start, ops, worlds, j, row)
  {
  }

  lemma ServesRow(start: Rows, ops: seq<Op>, worlds: seq<World>, j: nat)
    requires j < |ops| == |worlds| && ops[j].Reads()
    ensures var raw, row := ReadAt(start, ops, worlds, j).raw, RowsAfter(start, ops[..j + 1], worlds[..j + 1]).canopy;
            raw.Some? ==> raw.value == if row.Some? then row.value.raw else RowsAtRead(start, ops, worlds, j).Local()
  {
    hide Compose;
    var head, worldsHead := ops[..j + 1], worlds[..j + 1];
    assert head[..j] == ops[..j] && worldsHead[..j] == worlds[..j] && head[j] == ops[j] && worldsHead[j] == worlds[j];
  }

  // ----- The stored cost over any sequence of events ------------------------------------------

  /** Event j wrote this report: it is what the aggregator makes of a whole read. */
  ghost predicate WrittenBy(store: Store, start: Rows, ops: seq<Op>, worlds: seq<World>, j: nat, report: Breakdown.Report)
    requires j < |ops| == |worlds|
  {
    var read := ReadAt(start, ops, worlds, j);
    (ops[j].Capture? || ops[j].Recompute?) && ops[j].Reads()
    && read.complete && read.raw.Some? && read.raw.value != "" && store.CostOf(read.raw.value, report)
  }

  /** The billable tokens stored after all events: a whole read replaces the
      figure if it is forced to, or is no smaller. */
  function StoredAfter(decode: string -> Line, start: Rows, ops: seq<Op>, worlds: seq<World>, stored: nat): nat
    requires |ops| == |worlds|
  {
    if ops == [] then stored
    else
      var n := |ops| - 1;
      var before, read := StoredAfter(decode, start, ops[..n], worlds[..n], stored), ReadAt(start, ops, worlds, n);
      if ops[n].Derives() && Usable(read) && (ops[n].Overrides() || before <= Totals(read.raw.value, decode).Billable())
      then Totals(read.raw.value, decode).Billable()
      else before
  }

  /** Without forced recomputes the stored figure is at least the one before, and
      at least that of every whole read a cost was derived from. */
  lemma {:induction false} RatchetHolds(decode: string -> Line, start: Rows, ops: seq<Op>, worlds: seq<World>, stored: nat)
    requires |ops| == |worlds| && forall j | 0 <= j < |ops| :: !ops[j].Overrides()
    ensures stored <= StoredAfter(decode, start, ops, worlds, stored)
    ensures forall j | 0 <= j < |ops| && ops[j].Reads() && !ops[j].View? ::
              var read := ReadAt(start, ops, worlds, j);
              read.complete && read.raw.Some? && read.raw.value != "" ==>
                Totals(read.raw.value, decode).Billable() <= StoredAfter(decode, start, ops, worlds, stored)
  {
    hide Totals, ReadAt;
    if ops != [] {
      var n := |ops| - 1;
      RatchetHolds(decode, start, ops[..n], worlds[..n], stored);
      forall j | 0 <= j < n ensures ReadAt(start, ops, worlds, j) == ReadAt(start, ops[..n], worlds[..n], j) {
        SeatsAlike(start, ops, worlds, n, j);
      }
    }
  }

  /** One event. */
  method Apply(store: Store, op: Op, w: World)
    modifies store
    ensures store.Now() == if op.Reads() then op.Enter(old(store.Now())).Refreshed(w, op.Refreshes()) else op.Enter(old(store.Now()))
    ensures var read := op.Enter(old(store.Now())).Served(w, op.Refreshes());
            if op.Derives() && store.Replaces(read, old(store.cost), op.Overrides())
            then store.cost.Some? && store.CostOf(read.raw.value, store.cost.value)
            else store.cost == old(store.cost)
  {
    match op {
      case Capture(text) => store.StoreTranscript(w, text);
      case Dispatch => store.dispatched := true;
      case TurnsChange(turns) => store.turns := turns;
      case View(force) =>
        var _, _ := store.Read(w, force);
      case Recompute(forceRefresh, force) => store.RecomputeCost(w, forceRefresh, force);
    }
  }

  /** Any sequence of events: the rows are what the rules say, and the stored cost
      is the old one or a report that some event wrote from a whole read. */
  method Replay(store: Store, ops: seq<Op>, worlds: seq<World>)
    requires |ops| == |worlds|
    modifies store
    ensures store.Now() == RowsAfter(old(store.Now()), ops, worlds)
    ensures Billable(store.cost) == StoredAfter(store.decode, old(store.Now()), ops, worlds, Billable(old(store.cost)))
    ensures store.cost == old(store.cost)
            || (store.cost.Some? && exists j :: 0 <= j < |ops| && WrittenBy(store, old(store.Now()), ops, worlds, j, store.cost.value))
  {
    ghost var start, stored := store.Now(), store.cost;
    for k := 0 to |ops|
      invariant store.Now() == RowsAfter(start, ops[..k], worlds[..k])
      invariant Billable(store.cost) == StoredAfter(store.decode, start, ops[..k], worlds[..k], Billable(stored))
      invariant Written(store, start, ops[..k], worlds[..k], stored, store.cost)
    {
      hide *;
      ghost var before := store.cost;
      Apply(store, ops[k], worlds[k]);
      RowsStep(start, ops, worlds, k);
      StoredStep(store, start, ops, worlds, k, Billable(stored), before, store.cost);
      WrittenStep(store, start, ops, worlds, k, stored, before, store.cost);
    }
    assert ops[..|ops|] == ops && worlds[..|worlds|] == worlds;
  }

  ghost predicate Written(store: Store, start: Rows, ops: seq<Op>, worlds: seq<World>,
                          stored: Option<Breakdown.Report>, cost: Option<Breakdown.Report>)
    requires |ops| == |worlds|
  {
    cost == stored || (cost.Some? && exists j :: 0 <= j < |ops| && WrittenBy(store, start, ops, worlds, j, cost.value))
  }

  lemma RowsStep(start: Rows, ops: seq<Op>, worlds: seq<World>, k: nat)
    requires k < |ops| == |worlds|
    ensures var rows := ops[k].Enter(RowsAfter(start, ops[..k], worlds[..k]));
            RowsAfter(start, ops[..k + 1], worlds[..k + 1]) ==
              (if ops[k].Reads() then rows.Refreshed(worlds[k], ops[k].Refreshes()) else rows)
            && ReadAt(start, ops[..k + 1], worlds[..k + 1], k) == rows.Served(worlds[k], ops[k].Refreshes())
  {
    hide Compose;
    assert ops[..k + 1][..k] == ops[..k] && worlds[..k + 1][..k] == worlds[..k];
  }

  lemma StoredStep(store: Store, start: Rows, ops: seq<Op>, worlds: seq<World>, k: nat, stored: nat,
                   before: Option<Breakdown.Report>, after: Option<Breakdown.Report>)
    requires k < |ops| == |worlds| && Billable(before) == StoredAfter(store.decode, start, ops[..k], worlds[..k], stored)
    requires var read := ReadAt(start, ops[..k + 1], worlds[..k + 1], k);
             if ops[k].Derives() && store.Replaces(read, before, ops[k].Overrides())
             then after.Some? && store.CostOf(read.raw.value, after.value)
             else after == before
    ensures Billable(after) == StoredAfter(store.decode, start, ops[..k + 1], worlds[..k + 1], stored)
  {
    hide Totals, ReadAt, Store.CostOf;
    assert ops[..k + 1][..k] == ops[..k] && worlds[..k + 1][..k] == worlds[..k];
    var read := ReadAt(start, ops[..k + 1], worlds[..k + 1], k);
    if ops[k].Derives() && store.Replaces(read, before, ops[k].Overrides()) {
      store.CostTotals(read.raw.value, after.value);
    }
  }

  lemma WrittenStep(store: Store, start: Rows, ops: seq<Op>, worlds: seq<World>, k: nat, stored: Option<Breakdown.Report>,
                    before: Option<Breakdown.Report>, after: Option<Breakdown.Report>)
    requires k < |ops| == |worlds| && Written(store, start, ops[..k], worlds[..k], stored, before)
    requires var read := ReadAt(start, ops[..k + 1], worlds[..k + 1], k);
             if ops[k].Derives() && store.Replaces(read, before, ops[k].Overrides())
             then after.Some? && store.CostOf(read.raw.value, after.value)
             else after == before
    ensures Written(store, start, ops[..k + 1], worlds[..k + 1], stored, after)
  {
    hide Totals, ReadAt, Store.CostOf;
    var more, answers := ops[..k + 1], worlds[..k + 1];
    assert more[..k] == ops[..k] && answers[..k] == worlds[..k];
    var read := ReadAt(start, more, answers, k);
    if ops[k].Derives() && store.Replaces(read, before, ops[k].Overrides()) {
      assert WrittenBy(store, start, more, answers, k, after.value);
    } else if after != stored {
      var j :| 0 <= j < k && WrittenBy(store, start, ops[..k], worlds[..k], j, before.value);
      SeatsAlike(start, more, answers, k, j);
      assert WrittenBy(store, start, more, answers, j, after.value);
    }
  }
}
