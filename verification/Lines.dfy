/**
 From transcript text to session totals: `str.splitlines`, the projection of
 apps/ingest/parser.py and the running sum of apps/ingest/cost_aggregator.py.
 */
module Lines {
  import opened Transcript
  import opened Attribution

  /** The characters Python's `splitlines` breaks at. */
  predicate IsBreak(c: char) {
    c in "\n\r\U{b}\U{c}\U{1c}\U{1d}\U{1e}\U{85}\U{2028}\U{2029}"
  }

  /** The lines of s, the first of which already holds `line`. */
  function SplitFrom(s: string, line: string): seq<string>
    decreases |s|
  {
    if s == "" then if line == "" then [] else [line]
    else if s[0] == '\r' && |s| > 1 && s[1] == '\n' then [line] + SplitFrom(s[2..], "")
    else if IsBreak(s[0]) then [line] + SplitFrom(s[1..], "")
    else SplitFrom(s[1..], line + [s[0]])
  }

  function SplitLines(s: string): seq<string> {
    SplitFrom(s, "")
  }

  /** Empty, or ending in a newline. */
  predicate Terminated(s: string) {
    s == "" || s[|s| - 1] == '\n'
  }

  /** How many characters the first step of splitting takes, and whether it ends the line. */
  function Step(s: string): (int, bool)
    requires s != ""
  {
    if s[0] == '\r' && |s| > 1 && s[1] == '\n' then (2, true) else (1, IsBreak(s[0]))
  }

  lemma SplitStep(s: string, line: string)
    requires s != ""
    ensures 1 <= Step(s).0 <= |s|
    ensures SplitFrom(s, line) == if Step(s).1 then [line] + SplitFrom(s[Step(s).0..], "") else SplitFrom(s[Step(s).0..], line + [s[0]])
  {
    hide IsBreak;
  }

  /** Text appended after a newline is never looked at when its predecessors split. */
  lemma StepAppend(a: string, b: string)
    requires a != "" && Terminated(a)
    ensures 1 <= Step(a).0 <= |a| && Step(a + b) == Step(a)
    ensures (a + b)[Step(a).0..] == a[Step(a).0..] + b && (a + b)[0] == a[0]
    ensures Terminated(a[Step(a).0..]) && (a[Step(a).0..] == "" ==> Step(a).1)
  {
  }

  /** Lines of terminated text followed by more text are its lines, then the others. */
  lemma {:induction false} SplitConcat(a: string, b: string, line: string)
    requires Terminated(a) && (a == "" ==> line == "")
    ensures SplitFrom(a + b, line) == SplitFrom(a, line) + SplitFrom(b, "")
    decreases |a|
  {
    hide *;
    if a == "" {
      assert a + b == b;
      SplitNothing();
    } else {
      StepAppend(a, b);
      SplitStep(a, line);
      SplitStep(a + b, line);
      SplitConcat(a[Step(a).0..], b, if Step(a).1 then "" else line + [a[0]]);
    }
  }

  lemma SplitNothing()
    ensures SplitFrom("", "") == []
  {
  }

  /** The line before a break, and the lines behind it; "\r\n" is one break. */
  lemma {:induction false} SplitAtBreak(s: string, line: string, c: char, rest: string)
    requires (forall i | 0 <= i < |s| :: !IsBreak(s[i])) && IsBreak(c)
    ensures !(c == '\r' && rest != "" && rest[0] == '\n') ==> SplitFrom(s + [c] + rest, line) == [line + s] + SplitFrom(rest, "")
    ensures c == '\r' && rest != "" && rest[0] == '\n' ==> SplitFrom(s + [c] + rest, line) == [line + s] + SplitFrom(rest[1..], "")
    decreases |s|
  {
    var all := s + [c] + rest;
    SplitStep(all, line);
    if s == "" {
      assert all == [c] + rest && line + s == line;
      assert all[1..] == rest && (rest != "" ==> all[2..] == rest[1..]);
    } else {
      NoReturn(s[0]);
      assert all[1..] == s[1..] + [c] + rest && line + s == line + [s[0]] + s[1..];
      hide IsBreak;
      SplitAtBreak(s[1..], line + [s[0]], c, rest);
    }
  }

  lemma NoReturn(c: char)
    requires !IsBreak(c)
    ensures c != '\r' && c != '\n'
  {
  }

  /** Text without a break is one line. */
  lemma {:induction false} SplitUnbroken(s: string, line: string)
    requires forall i | 0 <= i < |s| :: !IsBreak(s[i])
    ensures SplitFrom(s, line) == if line + s == "" then [] else [line + s]
    decreases |s|
  {
    if s == "" {
      assert line + s == line;
    } else {
      SplitStep(s, line);
      NoReturn(s[0]);
      assert line + s == line + [s[0]] + s[1..];
      SplitUnbroken(s[1..], line + [s[0]]);
    }
  }

  /** Splitting text at its breaks: the first line, and the lines of the rest. */
  lemma FirstLine(s: string, c: char, rest: string)
    requires forall i | 0 <= i < |s| :: !IsBreak(s[i])
    ensures SplitLines(s) == if s == "" then [] else [s]
    ensures IsBreak(c) && !(c == '\r' && rest != "" && rest[0] == '\n') ==> SplitLines(s + [c] + rest) == [s] + SplitLines(rest)
    ensures SplitLines(s + "\r\n" + rest) == [s] + SplitLines(rest)
  {
    hide IsBreak;
    assert "" + s == s;
    SplitUnbroken(s, "");
    if IsBreak(c) {
      SplitAtBreak(s, "", c, rest);
    }
    ReturnBreaks();
    assert s + "\r\n" + rest == s + ['\r'] + ("\n" + rest);
    SplitAtBreak(s, "", '\r', "\n" + rest);
    assert ("\n" + rest)[1..] == rest;
  }

  lemma ReturnBreaks()
    ensures IsBreak('\r') && IsBreak('\n')
  {
  }

  /** `decode` is one line's JSON, `OtherLine` for what does not decode. */
  function Decoded(lines: seq<string>, decode: string -> Line): (decoded: seq<Line>)
    ensures |decoded| == |lines|
  {
    seq(|lines|, i requires 0 <= i < |lines| => decode(lines[i]))
  }

  function Totals(raw: string, decode: string -> Line): Tokens {
    EventTotals(EventsOf(Decoded(SplitLines(raw), decode)))
  }

  /** The aggregator's running sum over a whole stream. */
  function EventTotals(events: seq<CostEvent>): Tokens {
    if events == [] then EmptyTokens else EventTotals(events[..|events| - 1]).Plus(UsageOf(events[|events| - 1]))
  }

  lemma {:induction false} EventTotalsIsTotal(events: seq<CostEvent>, n: nat)
    requires n <= |events|
    ensures EventTotals(events[..n]) == Total(events, n)
  {
    if n > 0 {
      EventTotalsIsTotal(events, n - 1);
      assert events[..n][..n - 1] == events[..n - 1];
    }
  }

  lemma {:induction false} EventTotalsConcat(a: seq<CostEvent>, b: seq<CostEvent>)
    ensures EventTotals(a + b) == EventTotals(a).Plus(EventTotals(b))
  {
    if b == [] {
      assert a + b == a;
      PlusEmpty(EventTotals(a));
    } else {
      var n := |b| - 1;
      EventTotalsConcat(a, b[..n]);
      assert (a + b)[..|a| + n] == a + b[..n] && (a + b)[|a| + n] == b[n];
      PlusAssoc(EventTotals(a), EventTotals(b[..n]), UsageOf(b[n]));
    }
  }

  /** Totals are a homomorphism on newline-terminated transcripts. */
  lemma TotalsConcat(a: string, b: string, decode: string -> Line)
    requires Terminated(a)
    ensures Totals(a + b, decode) == Totals(a, decode).Plus(Totals(b, decode))
  {
    var x, y := SplitLines(a), SplitLines(b);
    SplitConcat(a, b, "");
    assert Decoded(x + y, decode) == Decoded(x, decode) + Decoded(y, decode);
    hide SplitLines, EventTotals, EventsOf, Decoded;
    EventsOfConcat(Decoded(x, decode), Decoded(y, decode));
    EventTotalsConcat(EventsOf(Decoded(x, decode)), EventsOf(Decoded(y, decode)));
  }

  lemma BillableSum(a: Tokens, b: Tokens)
    ensures a.Plus(b).Billable() == a.Billable() + b.Billable()
  {
  }
}
