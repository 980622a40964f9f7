/**
 From transcript lines to parsed turns (apps/ingest/parser.py,
 `parse_session_bytes` and `_strip_nul`).
 */
module TurnParser {
  import opened Options

  datatype Json =
    | Text(text: string)
    | Scalar
    | List(items: seq<Json>)
    | Object(keys: seq<string>, values: seq<Json>)

  /** A content block: text, a tool call, its result, or something else. */
  datatype Block = TextBlock(text: string) | UseBlock(content: Json) | ResultBlock(content: Json) | OtherBlock

  datatype Line =
    | Assistant(id: Option<string>, blocks: seq<Block>)
    | User(blocks: seq<Block>)
    | Result
    | Other

  datatype Turn = Said(text: string) | Used(content: Json) | Got(content: Json)

  // ----- NUL bytes ------------------------------------------------------------------

  const NUL: char := '\0'

  function StripText(s: string): string {
    if s == "" then ""
    else StripText(s[..|s| - 1]) + if s[|s| - 1] == NUL then "" else [s[|s| - 1]]
  }

  function StripNul(j: Json): Json {
    match j
    case Text(s) => Text(StripText(s))
    case Scalar => Scalar
    case List(items) => List(seq(|items|, i requires 0 <= i < |items| => StripNul(items[i])))
    case Object(keys, values) => Object(keys, seq(|values|, i requires 0 <= i < |values| => StripNul(values[i])))
  }

  /** No string value holds a NUL; keys are left as they are. */
  predicate Storable(j: Json) {
    match j
    case Text(s) => NUL !in s
    case Scalar => true
    case List(items) => forall i | 0 <= i < |items| :: Storable(items[i])
    case Object(_, values) => forall i | 0 <= i < |values| :: Storable(values[i])
  }

  lemma {:induction false} StripTextClean(s: string)
    ensures NUL !in StripText(s)
    ensures NUL !in s ==> StripText(s) == s
  {
    if s != "" {
      StripTextClean(s[..|s| - 1]);
      assert s == s[..|s| - 1] + [s[|s| - 1]];
    }
  }

  /** A NUL goes, and what stands before and behind it stays. */
  lemma {:induction false} StripTextPieces(a: string, b: string)
    ensures StripText(a + [NUL] + b) == StripText(a) + StripText(b)
  {
    var all := a + [NUL] + b;
    if b == "" {
      assert all[..|all| - 1] == a && StripText(a) + "" == StripText(a);
    } else {
      var n := |b| - 1;
      StripTextPieces(a, b[..n]);
      assert all[..|all| - 1] == a + [NUL] + b[..n] && all[|all| - 1] == b[n];
    }
  }

  /** Stripping leaves no NUL in any string value, and only storable values alone. */
  lemma {:induction false} StripNulStorable(j: Json)
    ensures Storable(StripNul(j))
    ensures Storable(j) ==> StripNul(j) == j
    decreases j
  {
    match j
    case Text(s) => StripTextClean(s);
    case Scalar =>
    case List(items) =>
      forall i | 0 <= i < |items| ensures Storable(StripNul(items[i])) && (Storable(items[i]) ==> StripNul(items[i]) == items[i]) {
        StripNulStorable(items[i]);
      }
    case Object(_, values) =>
      forall i | 0 <= i < |values| ensures Storable(StripNul(values[i])) && (Storable(values[i]) ==> StripNul(values[i]) == values[i]) {
        StripNulStorable(values[i]);
      }
  }

  // ----- What a transcript says, and what its turns say --------------------------------

  /** One character of text, or one tool block. */
  datatype Atom = Char(c: char) | Use(content: Json) | Reply(content: Json)

  function Chars(s: string): seq<Atom> {
    seq(|s|, i requires 0 <= i < |s| => Char(s[i]))
  }

  function BlockAtoms(block: Block, assistant: bool): seq<Atom> {
    match block
    case TextBlock(text) => if assistant then Chars(text) else []
    case UseBlock(content) => if assistant then [Use(content)] else []
    case ResultBlock(content) => if assistant then [] else [Reply(content)]
    case OtherBlock => []
  }

  function BlocksAtoms(blocks: seq<Block>, assistant: bool): seq<Atom> {
    if blocks == [] then []
    else BlocksAtoms(blocks[..|blocks| - 1], assistant) + BlockAtoms(blocks[|blocks| - 1], assistant)
  }

  function LineAtoms(line: Line): seq<Atom> {
    match line
    case Assistant(_, blocks) => BlocksAtoms(blocks, true)
    case User(blocks) => BlocksAtoms(blocks, false)
    case Result => []
    case Other => []
  }

  function LinesAtoms(lines: seq<Line>): seq<Atom> {
    if lines == [] then [] else LinesAtoms(lines[..|lines| - 1]) + LineAtoms(lines[|lines| - 1])
  }

  function TurnAtoms(turn: Turn): seq<Atom> {
    match turn
    case Said(text) => Chars(text)
    case Used(content) => [Use(content)]
    case Got(content) => [Reply(content)]
  }

  function TurnsAtoms(turns: seq<Turn>): seq<Atom> {
    if turns == [] then [] else TurnsAtoms(turns[..|turns| - 1]) + TurnAtoms(turns[|turns| - 1])
  }

  lemma TurnsSnoc(turns: seq<Turn>, turn: Turn)
    ensures TurnsAtoms(turns + [turn]) == TurnsAtoms(turns) + TurnAtoms(turn)
  {
    assert (turns + [turn])[..|turns|] == turns;
  }

  // ----- What has been read -----------------------------------------------------------------

  /** The turns so far, the text of the open one, and the message it belongs to. */
  datatype Reading = Reading(turns: seq<Turn>, pending: Option<string>, message: Option<string>)

  const NothingRead := Reading([], None, None)

  function Closed(x: Reading): Reading {
    if x.pending.Some? then x.(turns := x.turns + [Said(x.pending.value)], pending := None) else x
  }

  /** The open text turn ends, and with it the memory of its message. */
  function Ended(x: Reading): Reading {
    if x.pending.Some? then Closed(x).(message := None) else x
  }

  function WithBlock(x: Reading, block: Block, assistant: bool): Reading {
    match block
    case TextBlock(text) => if assistant then x.(pending := Some(GetOr(x.pending, "") + text)) else x
    case UseBlock(content) =>
      if assistant then var y := Ended(x); y.(turns := y.turns + [Used(content)]) else x
    case ResultBlock(content) => if assistant then x else x.(turns := x.turns + [Got(content)])
    case OtherBlock => x
  }

  function WithBlocks(x: Reading, blocks: seq<Block>, assistant: bool): Reading {
    if blocks == [] then x
    else WithBlock(WithBlocks(x, blocks[..|blocks| - 1], assistant), blocks[|blocks| - 1], assistant)
  }

  function Began(x: Reading, id: Option<string>): Reading {
    (if id != x.message then Closed(x) else x).(message := id)
  }

  function WithLine(x: Reading, line: Line): Reading {
    match line
    case Assistant(id, blocks) => WithBlocks(Began(x, id), blocks, true)
    case User(blocks) => WithBlocks(Ended(x), blocks, false)
    case Result => Ended(x)
    case Other => x
  }

  function WithLines(x: Reading, lines: seq<Line>): Reading {
    if lines == [] then x else WithLine(WithLines(x, lines[..|lines| - 1]), lines[|lines| - 1])
  }

  /** The turns of a transcript, before NULs are stripped. */
  function Turns(lines: seq<Line>): seq<Turn> {
    Closed(WithLines(NothingRead, lines)).turns
  }

  lemma WithBlocksNext(x: Reading, blocks: seq<Block>, k: nat, assistant: bool)
    requires k < |blocks|
    ensures WithBlocks(x, blocks[..k + 1], assistant) == WithBlock(WithBlocks(x, blocks[..k], assistant), blocks[k], assistant)
  {
    assert blocks[..k + 1][..k] == blocks[..k];
  }

  lemma WithNoBlocks(x: Reading, assistant: bool)
    ensures WithBlocks(x, [], assistant) == x
  {
  }

  // ----- The parser -----------------------------------------------------------------------

  /** `current_assistant_text`, its message id, and the turns so far. */
  class Parser {
    var turns: seq<Turn>
    var pending: Option<string>
    var message: Option<string>

    constructor ()
      ensures turns == [] && pending.None? && Says() == [] && message.None?
    {
      turns, pending, message := [], None, None;
    }

    /** Everything read so far, in order. */
    function Says(): seq<Atom>
      reads this`turns, this`pending
    {
      TurnsAtoms(turns) + Chars(GetOr(pending, ""))
    }

    /** Ends the text turn, if one is open. */
    method Flush()
      modifies this`turns, this`pending
      ensures pending.None? && Says() == old(Says()) && TurnsAtoms(turns) == Says()
      ensures Reading(turns, pending, message) == Closed(old(Reading(turns, pending, message)))
    {
      if pending.Some? {
        TurnsSnoc(turns, Said(pending.value));
        turns := turns + [Said(pending.value)];
        pending := None;
      }
    }

    method AddText(text: string)
      modifies this`pending
      ensures Says() == old(Says()) + Chars(text)
      ensures pending == Some(GetOr(old(pending), "") + text)
    {
      CharsConcat(GetOr(pending, ""), text);
      pending := Some(GetOr(pending, "") + text);
    }

    method AddTurn(turn: Turn)
      requires pending.None?
      modifies this`turns
      ensures Says() == old(Says()) + TurnAtoms(turn) && turns == old(turns) + [turn]
    {
      TurnsSnoc(turns, turn);
      turns := turns + [turn];
    }

    method ReadAssistant(id: Option<string>, blocks: seq<Block>)
      modifies this
      ensures Says() == old(Says()) + BlocksAtoms(blocks, true)
      ensures Reading(turns, pending, message) == WithLine(old(Reading(turns, pending, message)), Assistant(id, blocks))
    {
      hide *;
      if id != message {
        Flush();
      }
      message := id;
      ghost var began := Began(old(Reading(turns, pending, message)), id);
      BeganIs(old(Reading(turns, pending, message)), id);
      NoBlocks(true);
      WithNoBlocks(began, true);
      assert blocks[..0] == [] && old(Says()) + [] == Says();
      for k := 0 to |blocks|
        invariant Says() == old(Says()) + BlocksAtoms(blocks[..k], true)
        invariant Reading(turns, pending, message) == WithBlocks(began, blocks[..k], true)
      {
        BlocksNext(blocks, k, true);
        WithBlocksNext(began, blocks, k, true);
        BlockRead(Reading(turns, pending, message), blocks[k]);
        match blocks[k] {
          case TextBlock(text) => AddText(text);
          case UseBlock(content) =>
            if pending.Some? {
              Flush();
              message := None;
            }
            AddTurn(Used(content));
          case ResultBlock(_) =>
          case OtherBlock =>
        }
      }
      assert blocks[..|blocks|] == blocks;
      LineRead(old(Reading(turns, pending, message)), id, blocks);
    }

    method ReadUser(blocks: seq<Block>)
      modifies this
      ensures Says() == old(Says()) + BlocksAtoms(blocks, false)
      ensures Reading(turns, pending, message) == WithLine(old(Reading(turns, pending, message)), User(blocks))
    {
      hide *;
      if pending.Some? {
        Flush();
        message := None;
      }
      ghost var ended := Ended(old(Reading(turns, pending, message)));
      EndedIs(old(Reading(turns, pending, message)));
      NoBlocks(false);
      WithNoBlocks(ended, false);
      assert blocks[..0] == [] && old(Says()) + [] == Says();
      for k := 0 to |blocks|
        invariant pending.None? && Says() == old(Says()) + BlocksAtoms(blocks[..k], false)
        invariant Reading(turns, pending, message) == WithBlocks(ended, blocks[..k], false)
      {
        BlocksNext(blocks, k, false);
        WithBlocksNext(ended, blocks, k, false);
        BlockRead(Reading(turns, pending, message), blocks[k]);
        match blocks[k] {
          case ResultBlock(content) => AddTurn(Got(content));
          case _ =>
        }
      }
      assert blocks[..|blocks|] == blocks;
      LineRead(old(Reading(turns, pending, message)), None, blocks);
    }
  }

  lemma BeganIs(x: Reading, id: Option<string>)
    ensures Began(x, id) == (if id != x.message then Closed(x) else x).(message := id)
  {
    hide Closed;
  }

  lemma EndedIs(x: Reading)
    ensures Ended(x) == if x.pending.Some? then Closed(x).(message := None) else x
    ensures Ended(x).pending.None?
  {
  }

  lemma LineRead(x: Reading, id: Option<string>, blocks: seq<Block>)
    ensures WithLine(x, Assistant(id, blocks)) == WithBlocks(Began(x, id), blocks, true)
    ensures WithLine(x, User(blocks)) == WithBlocks(Ended(x), blocks, false)
    ensures WithLine(x, Result) == Ended(x) && WithLine(x, Other) == x
  {
    hide WithBlocks, Began, Ended;
  }

  lemma BlockRead(x: Reading, block: Block)
    ensures WithBlock(x, block, true) ==
            match block
            case TextBlock(text) => x.(pending := Some(GetOr(x.pending, "") + text))
            case UseBlock(content) => Ended(x).(turns := Ended(x).turns + [Used(content)])
            case ResultBlock(_) => x
            case OtherBlock => x
    ensures WithBlock(x, block, false) == if block.ResultBlock? then x.(turns := x.turns + [Got(block.content)]) else x
    ensures Ended(x) == if x.pending.Some? then Closed(x).(message := None) else x
  {
  }

  lemma NoBlocks(assistant: bool)
    ensures BlocksAtoms([], assistant) == []
  {
  }

  /** What one block adds to what has been said. */
  lemma BlocksNext(blocks: seq<Block>, k: nat, assistant: bool)
    requires k < |blocks|
    ensures blocks[..k] + [blocks[k]] == blocks[..k + 1]
    ensures BlocksAtoms(blocks[..k + 1], assistant) ==
            match blocks[k]
            case TextBlock(text) => if assistant then BlocksAtoms(blocks[..k], assistant) + Chars(text) else BlocksAtoms(blocks[..k], assistant)
            case UseBlock(content) =>
              if assistant then BlocksAtoms(blocks[..k], assistant) + TurnAtoms(Used(content)) else BlocksAtoms(blocks[..k], assistant)
            case ResultBlock(content) =>
              if assistant then BlocksAtoms(blocks[..k], assistant) else BlocksAtoms(blocks[..k], assistant) + TurnAtoms(Got(content))
            case OtherBlock => BlocksAtoms(blocks[..k], assistant)
  {
    assert blocks[..k + 1][..k] == blocks[..k];
  }

  lemma CharsConcat(a: string, b: string)
    ensures Chars(a + b) == Chars(a) + Chars(b)
  {
  }

  // ----- The finished turns ---------------------------------------------------------------

  function Stripped(turn: Turn): Turn {
    match turn
    case Said(text) => Said(StripText(text))
    case Used(content) => Used(StripNul(content))
    case Got(content) => Got(StripNul(content))
  }

  function StrippedAll(turns: seq<Turn>): (r: seq<Turn>)
    ensures |r| == |turns|
  {
    seq(|turns|, i requires 0 <= i < |turns| => Stripped(turns[i]))
  }

  /** The atoms as they can be stored: NUL characters gone, values stripped. */
  function StrippedAtoms(atoms: seq<Atom>): seq<Atom> {
    if atoms == [] then []
    else
      var last := atoms[|atoms| - 1];
      StrippedAtoms(atoms[..|atoms| - 1]) + StrippedAtom(last)
  }

  predicate TurnStorable(turn: Turn) {
    match turn
    case Said(text) => NUL !in text
    case Used(content) => Storable(content)
    case Got(content) => Storable(content)
  }

  /** `parse_session_bytes`: read in order, the turns say what the transcript
      says, nothing lost at any flush, and can be stored. */
  method ParseTurns(lines: seq<Line>) returns (turns: seq<Turn>)
    ensures TurnsAtoms(turns) == StrippedAtoms(LinesAtoms(lines))
    ensures turns == StrippedAll(Turns(lines))
    ensures forall i | 0 <= i < |turns| :: TurnStorable(turns[i])
  {
    hide *;
    var p := new Parser();
    NothingSaid();
    LinesRead(NothingRead, []);
    NothingIs();
    for n := 0 to |lines|
      invariant p.Says() == LinesAtoms(lines[..n]) && Reading(p.turns, p.pending, p.message) == WithLines(NothingRead, lines[..n])
    {
      LineSaid(lines, n);
      WithLinesNext(NothingRead, lines, n);
      EndedIs(WithLines(NothingRead, lines[..n]));
      match lines[n] {
        case Assistant(id, blocks) => p.ReadAssistant(id, blocks);
        case User(blocks) => p.ReadUser(blocks);
        case Result =>
          if p.pending.Some? {
            p.Flush();
            p.message := None;
          }
        case Other =>
      }
    }
    assert lines[..|lines|] == lines;
    p.Flush();
    turns := StrippedAll(p.turns);
    StrippedTurns(p.turns);
    TurnsIs(lines);
    AllStorable(p.turns);
  }

  lemma NothingSaid()
    ensures LinesAtoms([]) == []
  {
  }

  lemma LineSaid(lines: seq<Line>, n: nat)
    requires n < |lines|
    ensures LinesAtoms(lines[..n + 1]) ==
            match lines[n]
            case Assistant(_, blocks) => LinesAtoms(lines[..n]) + BlocksAtoms(blocks, true)
            case User(blocks) => LinesAtoms(lines[..n]) + BlocksAtoms(blocks, false)
            case Result => LinesAtoms(lines[..n])
            case Other => LinesAtoms(lines[..n])
  {
    assert lines[..n + 1][..n] == lines[..n];
    hide BlocksAtoms;
  }

  lemma TurnsIs(lines: seq<Line>)
    ensures Turns(lines) == Closed(WithLines(NothingRead, lines)).turns
  {
  }

  lemma AllStorable(turns: seq<Turn>)
    ensures forall i | 0 <= i < |StrippedAll(turns)| :: TurnStorable(StrippedAll(turns)[i])
  {
    forall i | 0 <= i < |turns| ensures TurnStorable(Stripped(turns[i])) {
      StrippedStorable(turns[i]);
    }
    hide TurnStorable, Stripped;
  }

  lemma WithLinesNext(x: Reading, lines: seq<Line>, n: nat)
    requires n < |lines|
    ensures WithLines(x, lines[..n + 1]) == WithLine(WithLines(x, lines[..n]), lines[n])
    ensures lines[n].Result? ==> WithLine(WithLines(x, lines[..n]), lines[n]) == Ended(WithLines(x, lines[..n]))
    ensures lines[n].Other? ==> WithLine(WithLines(x, lines[..n]), lines[n]) == WithLines(x, lines[..n])
  {
    assert lines[..n + 1][..n] == lines[..n];
    hide Ended, WithBlocks, Began;
  }

  lemma StrippedStorable(turn: Turn)
    ensures TurnStorable(Stripped(turn))
  {
    match turn
    case Said(text) => StripTextClean(text);
    case Used(content) => StripNulStorable(content);
    case Got(content) => StripNulStorable(content);
  }

  function StrippedAtom(atom: Atom): seq<Atom> {
    match atom
    case Char(c) => if c == NUL then [] else [atom]
    case Use(content) => [Use(StripNul(content))]
    case Reply(content) => [Reply(StripNul(content))]
  }

  lemma StrippedSnoc(atoms: seq<Atom>, atom: Atom)
    ensures StrippedAtoms(atoms + [atom]) == StrippedAtoms(atoms) + StrippedAtom(atom)
  {
    hide StrippedAtom;
    assert (atoms + [atom])[..|atoms|] == atoms;
  }

  lemma {:induction false} StrippedConcat(a: seq<Atom>, b: seq<Atom>)
    ensures StrippedAtoms(a + b) == StrippedAtoms(a) + StrippedAtoms(b)
  {
    hide *;
    if b == [] {
      assert a + b == a;
      StrippedNone();
    } else {
      var n := |b| - 1;
      StrippedConcat(a, b[..n]);
      StrippedSnoc(a + b[..n], b[n]);
      StrippedSnoc(b[..n], b[n]);
      assert b == b[..n] + [b[n]] && a + b == a + b[..n] + [b[n]];
    }
  }

  lemma StrippedNone()
    ensures StrippedAtoms([]) == []
  {
  }

  lemma {:induction false} StrippedChars(s: string)
    ensures StrippedAtoms(Chars(s)) == Chars(StripText(s))
  {
    hide StripNul;
    if s != "" {
      var n := |s| - 1;
      StrippedChars(s[..n]);
      assert Chars(s)[..n] == Chars(s[..n]);
      CharsConcat(StripText(s[..n]), if s[n] == NUL then "" else [s[n]]);
    }
  }

  lemma StrippedTurn(turn: Turn)
    ensures TurnAtoms(Stripped(turn)) == StrippedAtoms(TurnAtoms(turn))
  {
    hide StripNul;
    match turn
    case Said(text) => StrippedChars(text);
    case Used(content) =>
      assert [Use(content)][..0] == [];
    case Got(content) =>
      assert [Reply(content)][..0] == [];
  }

  lemma {:induction false} StrippedTurns(turns: seq<Turn>)
    ensures TurnsAtoms(StrippedAll(turns)) == StrippedAtoms(TurnsAtoms(turns))
  {
    hide TurnAtoms, Stripped;
    if turns != [] {
      var n := |turns| - 1;
      StrippedTurns(turns[..n]);
      StrippedTurn(turns[n]);
      StrippedConcat(TurnsAtoms(turns[..n]), TurnAtoms(turns[n]));
      assert StrippedAll(turns)[..n] == StrippedAll(turns[..n]);
    }
  }

  // ----- Where turns end ----------------------------------------------------------------------

  /** The message of the last assistant line. */
  function LastMessage(lines: seq<Line>): Option<string> {
    if lines == [] then None
    else if lines[|lines| - 1].Assistant? then lines[|lines| - 1].id
    else LastMessage(lines[..|lines| - 1])
  }

  /** No text before the line is in the same turn as text behind it. */
  predicate Separates(before: seq<Line>, line: Line) {
    match line
    case Assistant(id, _) => id.Some? && id != LastMessage(before)
    case User(_) => true
    case Result => true
    case Other => false
  }

  lemma NothingIs()
    ensures NothingRead == Reading([], None, None) && Closed(NothingRead) == NothingRead
  {
  }

  lemma {:induction false} MessageIs(lines: seq<Line>)
    ensures WithLines(NothingRead, lines).message in {None, LastMessage(lines)}
  {
    hide *;
    NothingIs();
    LinesRead(NothingRead, lines);
    LastMessageIs(lines);
    if lines != [] {
      var n := |lines| - 1;
      var x := WithLines(NothingRead, lines[..n]);
      MessageIs(lines[..n]);
      match lines[n] {
        case Assistant(id, blocks) =>
          LineRead(x, id, blocks);
          BeganIs(x, id);
          BlocksMessage(Began(x, id), blocks, true);
        case User(blocks) =>
          LineRead(x, None, blocks);
          EndedIs(x);
          BlocksMessage(Ended(x), blocks, false);
        case Result =>
          LineRead(x, None, []);
          EndedIs(x);
        case Other =>
          LineRead(x, None, []);
      }
    }
  }

  lemma LinesRead(x: Reading, lines: seq<Line>)
    ensures WithLines(x, lines) == if lines == [] then x else WithLine(WithLines(x, lines[..|lines| - 1]), lines[|lines| - 1])
  {
    hide WithLine;
  }

  lemma LastMessageIs(lines: seq<Line>)
    ensures LastMessage(lines) ==
            if lines == [] then None
            else if lines[|lines| - 1].Assistant? then lines[|lines| - 1].id
            else LastMessage(lines[..|lines| - 1])
  {
  }

  lemma {:induction false} BlocksMessage(x: Reading, blocks: seq<Block>, assistant: bool)
    ensures WithBlocks(x, blocks, assistant).message in {None, x.message}
  {
    if blocks != [] {
      BlocksMessage(x, blocks[..|blocks| - 1], assistant);
    }
  }

  /** `x` has read what `y` has, behind `turns`. */
  predicate Behind(turns: seq<Turn>, x: Reading, y: Reading) {
    x.turns == turns + y.turns && x.pending == y.pending && (x.pending.Some? ==> x.message == y.message)
  }

  lemma BehindBlock(turns: seq<Turn>, x: Reading, y: Reading, block: Block, assistant: bool)
    requires Behind(turns, x, y) && (assistant ==> x.message == y.message)
    ensures var x', y' := WithBlock(x, block, assistant), WithBlock(y, block, assistant);
            Behind(turns, x', y') && (assistant ==> x'.message == y'.message)
  {
  }

  lemma {:induction false} BehindBlocks(turns: seq<Turn>, x: Reading, y: Reading, blocks: seq<Block>, assistant: bool)
    requires Behind(turns, x, y) && (assistant ==> x.message == y.message)
    ensures var x', y' := WithBlocks(x, blocks, assistant), WithBlocks(y, blocks, assistant);
            Behind(turns, x', y') && (assistant ==> x'.message == y'.message)
  {
    hide WithBlock, Behind;
    if blocks != [] {
      var n := |blocks| - 1;
      BehindBlocks(turns, x, y, blocks[..n], assistant);
      BehindBlock(turns, WithBlocks(x, blocks[..n], assistant), WithBlocks(y, blocks[..n], assistant), blocks[n], assistant);
    }
  }

  lemma BehindLine(turns: seq<Turn>, x: Reading, y: Reading, line: Line)
    requires Behind(turns, x, y)
    ensures Behind(turns, WithLine(x, line), WithLine(y, line))
  {
    hide WithBlocks;
    match line {
      case Assistant(id, blocks) => BehindBlocks(turns, Began(x, id), Began(y, id), blocks, true);
      case User(blocks) => BehindBlocks(turns, Ended(x), Ended(y), blocks, false);
      case Result =>
      case Other =>
    }
  }

  lemma {:induction false} BehindLines(turns: seq<Turn>, x: Reading, y: Reading, lines: seq<Line>)
    requires Behind(turns, x, y)
    ensures Behind(turns, WithLines(x, lines), WithLines(y, lines))
  {
    hide WithLine, Behind;
    if lines != [] {
      var n := |lines| - 1;
      BehindLines(turns, x, y, lines[..n]);
      BehindLine(turns, WithLines(x, lines[..n]), WithLines(y, lines[..n]), lines[n]);
    }
  }

  /** A line that separates ends the open turn and starts from nothing. */
  lemma BehindSeparator(before: seq<Line>, line: Line)
    requires Separates(before, line)
    ensures Behind(Turns(before), WithLine(WithLines(NothingRead, before), line), WithLine(NothingRead, line))
  {
    hide WithBlocks, WithLines, LastMessage;
    var x := WithLines(NothingRead, before);
    MessageIs(before);
    match line {
      case Assistant(id, blocks) =>
        assert Behind(Turns(before), Began(x, id), Began(NothingRead, id));
        BehindBlocks(Turns(before), Began(x, id), Began(NothingRead, id), blocks, true);
      case User(blocks) =>
        assert Behind(Turns(before), Ended(x), Ended(NothingRead));
        BehindBlocks(Turns(before), Ended(x), Ended(NothingRead), blocks, false);
      case Result =>
    }
  }

  lemma {:induction false} WithLinesConcat(x: Reading, a: seq<Line>, b: seq<Line>)
    ensures WithLines(x, a + b) == WithLines(WithLines(x, a), b)
  {
    hide WithLine;
    if b == [] {
      assert a + b == a;
    } else {
      var n := |b| - 1;
      WithLinesConcat(x, a, b[..n]);
      assert (a + b)[..|a| + n] == a + b[..n];
    }
  }

  /** The turns before and from a line that separates are turns of their own:
      another message, a user line and a result end the turn, and nothing is
      joined across them. */
  lemma TurnsApart(before: seq<Line>, line: Line, rest: seq<Line>)
    requires Separates(before, line)
    ensures Turns(before + [line] + rest) == Turns(before) + Turns([line] + rest)
  {
    hide WithLine, Separates, WithLines;
    var x := WithLines(NothingRead, before);
    WithLinesConcat(NothingRead, before + [line], rest);
    WithLinesConcat(NothingRead, before, [line]);
    WithLinesConcat(NothingRead, [line], rest);
    OneLine(x, line);
    OneLine(NothingRead, line);
    BehindSeparator(before, line);
    BehindLines(Turns(before), WithLine(x, line), WithLine(NothingRead, line), rest);
    BehindClosed(Turns(before), WithLines(WithLine(x, line), rest), WithLines(WithLine(NothingRead, line), rest));
  }

  lemma OneLine(x: Reading, line: Line)
    ensures WithLines(x, [line]) == WithLine(x, line)
  {
    hide WithLine;
    assert [line][..0] == [];
  }

  lemma BehindClosed(turns: seq<Turn>, x: Reading, y: Reading)
    requires Behind(turns, x, y)
    ensures Closed(x).turns == turns + Closed(y).turns
  {
  }

  // ----- One message, one turn ---------------------------------------------------------------------

  /** The texts of some blocks, joined; None without a text block. */
  function Joined(blocks: seq<Block>): Option<string> {
    if blocks == [] then None
    else
      var text, last := Joined(blocks[..|blocks| - 1]), blocks[|blocks| - 1];
      if last.TextBlock? then Some(GetOr(text, "") + last.text) else text
  }

  function BlocksOf(lines: seq<Line>): seq<Block> {
    if lines == [] then []
    else BlocksOf(lines[..|lines| - 1]) + if lines[|lines| - 1].Assistant? then lines[|lines| - 1].blocks else []
  }

  predicate SameMessage(lines: seq<Line>, id: Option<string>) {
    forall i | 0 <= i < |lines| :: lines[i].Assistant? && lines[i].id == id
  }

  predicate NoUse(blocks: seq<Block>) {
    forall i | 0 <= i < |blocks| :: !blocks[i].UseBlock?
  }

  lemma {:induction false} JoinsOn(x: Reading, before: seq<Block>, blocks: seq<Block>)
    requires NoUse(blocks) && x.pending == Joined(before)
    ensures WithBlocks(x, blocks, true) == x.(pending := Joined(before + blocks))
  {
    if blocks == [] {
      assert before + blocks == before;
    } else {
      var n := |blocks| - 1;
      JoinsOn(x, before, blocks[..n]);
      assert (before + blocks)[..|before| + n] == before + blocks[..n];
    }
  }

  lemma {:induction false} MessageJoins(lines: seq<Line>, id: Option<string>)
    requires SameMessage(lines, id) && NoUse(BlocksOf(lines))
    ensures WithLines(NothingRead, lines) == Reading([], Joined(BlocksOf(lines)), if lines == [] then None else id)
  {
    hide WithBlocks;
    if lines != [] {
      var n := |lines| - 1;
      assert NoUse(BlocksOf(lines[..n])) && NoUse(lines[n].blocks) by {
        UsesApart(BlocksOf(lines[..n]), lines[n].blocks);
      }
      MessageJoins(lines[..n], id);
      var x := WithLines(NothingRead, lines[..n]);
      assert n == 0 ==> lines[..n] == [];
      assert Began(x, id) == x.(message := id);
      JoinsOn(x.(message := id), BlocksOf(lines[..n]), lines[n].blocks);
    }
  }

  lemma UsesApart(a: seq<Block>, b: seq<Block>)
    requires NoUse(a + b)
    ensures NoUse(a) && NoUse(b)
  {
    assert forall i | 0 <= i < |a| :: (a + b)[i] == a[i];
    assert forall i | 0 <= i < |b| :: (a + b)[|a| + i] == b[i];
  }

  /** The lines of one message that calls no tool make one turn, of all its text. */
  lemma OneMessage(lines: seq<Line>, id: Option<string>)
    requires SameMessage(lines, id) && NoUse(BlocksOf(lines))
    ensures Turns(lines) == match Joined(BlocksOf(lines)) { case Some(text) => [Said(text)] case None => [] }
  {
    hide WithLines, BlocksOf, Joined;
    MessageJoins(lines, id);
    assert [] + [Said(GetOr(Joined(BlocksOf(lines)), ""))] == [Said(GetOr(Joined(BlocksOf(lines)), ""))];
  }
}
