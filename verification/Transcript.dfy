/**
 The flat event stream both folds of apps/ingest consume, and its projection
 from the transcript's lines (apps/ingest/parser.py).
 */
module Transcript {
  import opened Options

  /** The four counters kept for a turn, a segment, a tree node or a session. */
  datatype Tokens = Tokens(input: nat, output: nat, cacheCreation: nat, cacheRead: nat) {
    function Plus(other: Tokens): Tokens {
      Tokens(input + other.input, output + other.output,
             cacheCreation + other.cacheCreation, cacheRead + other.cacheRead)
    }

    function Billable(): nat {
      input + output + cacheCreation + cacheRead
    }
  }

  const EmptyTokens := Tokens(0, 0, 0, 0)

  /** A `usage` object as the CLI writes it: any counter may be missing. */
  datatype Usage = Usage(input: Option<nat>, output: Option<nat>,
                         cacheCreation: Option<nat>, cacheRead: Option<nat>)

  function Counted(usage: Option<Usage>): Tokens {
    match usage
    case None => EmptyTokens
    case Some(u) => Tokens(GetOr(u.input, 0), GetOr(u.output, 0),
                           GetOr(u.cacheCreation, 0), GetOr(u.cacheRead, 0))
  }

  /** The keys of a tool's input that the folds read. `subjectSlug` is the
      skill slug of a "Phase N: <slug>" subject; `taskId` the number that the
      task id spells. */
  datatype ToolInput = ToolInput(skill: Option<string>, subagentType: Option<string>,
                                 subjectSlug: Option<string>, status: Option<string>,
                                 taskId: Option<nat>)

  /** One projected event. `priced` says whether the model has a price. */
  datatype CostEvent =
    | AssistantTurn(ts: Option<int>, uuid: Option<string>, parent: Option<string>, sidechain: bool,
                    usage: Option<Usage>, priced: bool, text: string)
    | ToolUse(ts: Option<int>, uuid: Option<string>, parent: Option<string>, sidechain: bool,
              useId: Option<string>, name: Option<string>, toolInput: ToolInput)
    | ToolResult(ts: Option<int>, uuid: Option<string>, parent: Option<string>, sidechain: bool,
                 matched: Option<string>, isError: bool)

  datatype ToolBlock = ToolBlock(useId: Option<string>, name: Option<string>, toolInput: ToolInput)
  datatype ResultBlock = ResultBlock(matched: Option<string>, isError: bool)

  /** One transcript line after JSON decoding. `texts` are the text blocks of
      an assistant message, in order. */
  datatype Line =
    | AssistantLine(ts: Option<int>, uuid: Option<string>, parent: Option<string>, sidechain: bool,
                    usage: Option<Usage>, priced: bool, texts: seq<string>, tools: seq<ToolBlock>)
    | UserLine(ts: Option<int>, uuid: Option<string>, parent: Option<string>, sidechain: bool,
               results: seq<ResultBlock>)
    | OtherLine

  function Concat(parts: seq<string>): string {
    if parts == [] then "" else parts[0] + Concat(parts[1..])
  }

  function TurnOf(line: Line): CostEvent
    requires line.AssistantLine?
  {
    AssistantTurn(line.ts, line.uuid, line.parent, line.sidechain, line.usage, line.priced, Concat(line.texts))
  }

  function UseOf(line: Line, block: ToolBlock): CostEvent
    requires line.AssistantLine?
  {
    ToolUse(line.ts, line.uuid, line.parent, line.sidechain, block.useId, block.name, block.toolInput)
  }

  function ResultOf(line: Line, block: ResultBlock): CostEvent
    requires line.UserLine?
  {
    ToolResult(line.ts, line.uuid, line.parent, line.sidechain, block.matched, block.isError)
  }

  function EventsOfLine(line: Line): seq<CostEvent> {
    match line
    case AssistantLine(_, _, _, _, usage, _, texts, tools) =>
      (if texts != [] || usage.Some? then [TurnOf(line)] else [])
      + seq(|tools|, i requires 0 <= i < |tools| => UseOf(line, tools[i]))
    case UserLine(_, _, _, _, results) =>
      seq(|results|, i requires 0 <= i < |results| => ResultOf(line, results[i]))
    case OtherLine => []
  }

  /** The events of a transcript, line by line in file order. */
  function EventsOf(lines: seq<Line>): seq<CostEvent> {
    if lines == [] then [] else EventsOf(lines[..|lines| - 1]) + EventsOfLine(lines[|lines| - 1])
  }

  method ExtractCostEvents(lines: seq<Line>) returns (events: seq<CostEvent>)
    ensures events == EventsOf(lines)
  {
    events := [];
    for n := 0 to |lines|
      invariant events == EventsOf(lines[..n])
    {
      var projected := ProjectLine(lines[n]);
      events := events + projected;
      EventsOfNext(lines, n);
    }
    assert lines[..|lines|] == lines;
  }

  lemma EventsOfNext(lines: seq<Line>, n: nat)
    requires n < |lines|
    ensures EventsOf(lines[..n + 1]) == EventsOf(lines[..n]) + EventsOfLine(lines[n])
  {
    EventsOfSnoc(lines[..n], lines[n]);
    assert lines[..n + 1] == lines[..n] + [lines[n]];
  }

  /** The body of the loop above: one line's events. */
  method ProjectLine(line: Line) returns (events: seq<CostEvent>)
    ensures events == EventsOfLine(line)
    ensures line.AssistantLine? ==>
              var turns := if line.texts != [] || line.usage.Some? then 1 else 0;
              |events| == turns + |line.tools|
              && (turns == 1 ==> events[0].AssistantTurn? && events[0].usage == line.usage && events[0].text == Concat(line.texts))
              && forall i | 0 <= i < |line.tools| ::
                   var e, block := events[turns + i], line.tools[i];
                   e.ToolUse? && e.useId == block.useId && e.name == block.name && e.toolInput == block.toolInput
    ensures line.UserLine? ==>
              |events| == |line.results|
              && forall i | 0 <= i < |events| ::
                   events[i].ToolResult? && events[i].matched == line.results[i].matched && events[i].isError == line.results[i].isError
    ensures line.OtherLine? ==> events == []
    ensures forall i | 0 <= i < |events| :: events[i].ts == line.ts && events[i].uuid == line.uuid
                                            && events[i].parent == line.parent && events[i].sidechain == line.sidechain
  {
    events := [];
    if line.AssistantLine? {
      if line.texts != [] || line.usage.Some? {
        events := [TurnOf(line)];
      }
      ghost var turn := events;
      for i := 0 to |line.tools|
        invariant events == turn + seq(i, j requires 0 <= j < i => UseOf(line, line.tools[j]))
      {
        events := events + [UseOf(line, line.tools[i])];
      }
    } else if line.UserLine? {
      for i := 0 to |line.results|
        invariant events == seq(i, j requires 0 <= j < i => ResultOf(line, line.results[j]))
      {
        events := events + [ResultOf(line, line.results[i])];
      }
    }
  }

  lemma EventsOfSnoc(lines: seq<Line>, line: Line)
    ensures EventsOf(lines + [line]) == EventsOf(lines) + EventsOfLine(line)
  {
    assert (lines + [line])[..|lines|] == lines;
  }

  /** Projection is a homomorphism: it never looks across a line boundary. */
  lemma {:induction false} EventsOfConcat(a: seq<Line>, b: seq<Line>)
    ensures EventsOf(a + b) == EventsOf(a) + EventsOf(b)
  {
    if b == [] {
      assert a + b == a;
    } else {
      var init, last := b[..|b| - 1], b[|b| - 1];
      assert b == init + [last] && a + b == (a + init) + [last];
      EventsOfConcat(a, init);
      EventsOfSnoc(init, last);
      EventsOfSnoc(a + init, last);
      ConcatAssoc(EventsOf(a), EventsOf(init), EventsOfLine(last));
    }
  }

  lemma ConcatAssoc<T>(a: seq<T>, b: seq<T>, c: seq<T>)
    ensures a + b + c == a + (b + c)
  {
  }

  // ----- Uuids ----------------------------------------------------------

  predicate HasUuid(e: CostEvent, u: string) {
    u != "" && e.uuid == Some(u)
  }

  predicate SameUuid(e: CostEvent, f: CostEvent) {
    Truthy(e.uuid) && e.uuid == f.uuid
  }

  /** No two lines share a uuid; lines without one are not constrained. */
  predicate DistinctUuids(lines: seq<Line>) {
    forall a, b | 0 <= a < b < |lines| && !lines[a].OtherLine? && !lines[b].OtherLine? ::
      Truthy(lines[a].uuid) ==> lines[a].uuid != lines[b].uuid
  }

  /** An assistant turn is the first event under its uuid, and only tool uses follow it. */
  predicate TurnsLead(events: seq<CostEvent>) {
    forall t, j | 0 <= t < |events| && 0 <= j < |events| && j != t ::
      events[t].AssistantTurn? && SameUuid(events[t], events[j]) ==> t < j && events[j].ToolUse?
  }

  lemma LineOfEvent(lines: seq<Line>, i: nat)
    requires i < |EventsOf(lines)|
    ensures exists n :: 0 <= n < |lines| && !lines[n].OtherLine? && EventsOf(lines)[i].uuid == lines[n].uuid
  {
    var n := |lines| - 1;
    if i < |EventsOf(lines[..n])| {
      LineOfEvent(lines[..n], i);
      var m :| 0 <= m < n && !lines[..n][m].OtherLine? && EventsOf(lines[..n])[i].uuid == lines[..n][m].uuid;
      assert lines[m] == lines[..n][m];
    } else {
      assert EventsOf(lines)[i] == EventsOfLine(lines[n])[i - |EventsOf(lines[..n])|];
    }
  }

  /** The parser emits a line's turn before its tool uses, so transcripts whose
      lines have distinct uuids give streams in which turns lead. */
  lemma {:induction false} ParsedTurnsLead(lines: seq<Line>)
    requires DistinctUuids(lines)
    ensures TurnsLead(EventsOf(lines))
  {
    if lines != [] {
      var n := |lines| - 1;
      var before, here := EventsOf(lines[..n]), EventsOfLine(lines[n]);
      ParsedTurnsLead(lines[..n]);
      forall i | 0 <= i < |before| && !lines[n].OtherLine? && Truthy(lines[n].uuid)
        ensures before[i].uuid != lines[n].uuid
      {
        LineOfEvent(lines[..n], i);
        var m :| 0 <= m < n && !lines[..n][m].OtherLine? && before[i].uuid == lines[..n][m].uuid;
        assert lines[m] == lines[..n][m];
      }
      TurnsLeadAppend(before, here);
    }
  }

  lemma TurnsLeadAppend(a: seq<CostEvent>, b: seq<CostEvent>)
    requires TurnsLead(a) && TurnsLead(b)
    requires forall i, j | 0 <= i < |a| && 0 <= j < |b| :: !SameUuid(a[i], b[j])
    ensures TurnsLead(a + b)
  {
  }
}
