/**
  The Server-Sent Events parser of `internal/burrow/llm/streaming.go`, a printer it inverts, and
  its agreement with the event stream interpretation of the WHATWG HTML standard, section 9.2.6.
*/
module Sse {
  import opened Lines

  datatype Event = Event(event: string, data: string, id: string)

  const NO_EVENT := Event("", "", "")

  /** The event being built and the events sent so far. */
  datatype Parser = Parser(current: Event, sent: seq<Event>)

  /** `strings.TrimRight(line, "\r\n")` */
  function TrimEol(line: string): string {
    if line != "" && (line[|line| - 1] == '\r' || line[|line| - 1] == '\n') then TrimEol(line[..|line| - 1]) else line
  }

  /** One line without its ending. */
  function Feed(p: Parser, line: string): Parser {
    if line == "" then
      if p.current.data != "" then Parser(NO_EVENT, p.sent + [p.current]) else p
    else if "data: " <= line then p.(current := p.current.(data := line[|"data: "|..]))
    else if "event: " <= line then p.(current := p.current.(event := line[|"event: "|..]))
    else if "id: " <= line then p.(current := p.current.(id := line[|"id: "|..]))
    else p
  }

  function FeedAll(lines: seq<string>): Parser {
    if lines == [] then Parser(NO_EVENT, [])
    else Feed(FeedAll(lines[..|lines| - 1]), lines[|lines| - 1])
  }

  function TrimAll(lines: seq<string>): seq<string> {
    seq(|lines|, i requires 0 <= i < |lines| => TrimEol(lines[i]))
  }

  datatype ReadEnd = EndOfFile | ReadError(message: string)

  /** All events for a text that then ends as `end` says; an unterminated last line is ignored. */
  function Events(text: string, end: ReadEnd): seq<Event> {
    FeedAll(TrimAll(Scan(text).lines)).sent + match end case EndOfFile => [] case ReadError(m) => [Event("error", m, "")]
  }

  // ---------------------------------------------------------------- printing, then parsing

  predicate FieldText(s: string) {
    '\r' !in s && '\n' !in s
  }

  predicate Printable(e: Event) {
    e.data != "" && FieldText(e.data) && FieldText(e.event) && FieldText(e.id)
  }

  /** The id and event lines; empty fields are left out. */
  function HeaderOf(e: Event): seq<string> {
    (if e.id != "" then ["id: " + e.id] else []) + (if e.event != "" then ["event: " + e.event] else [])
  }

  /** The lines of one event. */
  function BlockOf(e: Event): seq<string> {
    HeaderOf(e) + ["data: " + e.data] + [""]
  }

  function BlocksOf(events: seq<Event>): seq<string> {
    if events == [] then [] else BlocksOf(events[..|events| - 1]) + BlockOf(events[|events| - 1])
  }

  function Eol(crlf: bool): string {
    if crlf then "\r\n" else "\n"
  }

  /** The text of `lines`, the i-th one ended by CRLF or by LF. */
  function Assemble(lines: seq<string>, crlf: int -> bool): string {
    if lines == [] then ""
    else Assemble(lines[..|lines| - 1], crlf) + lines[|lines| - 1] + Eol(crlf(|lines| - 1))
  }

  /** One more line. */
  lemma FeedOne(lines: seq<string>, line: string)
    ensures FeedAll(lines + [line]) == Feed(FeedAll(lines), line)
  {
    assert (lines + [line])[..|lines|] == lines;
  }

  lemma FeedFields(p: Parser, s: string)
    ensures Feed(p, "data: " + s) == p.(current := p.current.(data := s))
    ensures Feed(p, "event: " + s) == p.(current := p.current.(event := s))
    ensures Feed(p, "id: " + s) == p.(current := p.current.(id := s))
  {
    assert ("data: " + s)[6..] == s;
    assert ("event: " + s)[7..] == s && ("event: " + s)[0] == 'e';
    assert ("id: " + s)[4..] == s && ("id: " + s)[0] == 'i';
    assert "data: "[0] == 'd' && "event: "[0] == 'e';
  }

  lemma FeedHeader(lines: seq<string>, e: Event)
    requires FeedAll(lines).current == NO_EVENT
    ensures FeedAll(lines + HeaderOf(e)) == Parser(Event(e.event, "", e.id), FeedAll(lines).sent)
  {
    var withId := lines + if e.id != "" then ["id: " + e.id] else [];
    FeedOne(lines, "id: " + e.id);
    FeedFields(FeedAll(lines), e.id);
    assert lines + [] == lines;
    assert FeedAll(withId) == Parser(Event("", "", e.id), FeedAll(lines).sent);
    FeedOne(withId, "event: " + e.event);
    FeedFields(FeedAll(withId), e.event);
    assert withId + [] == withId;
    assert lines + HeaderOf(e) == withId + if e.event != "" then ["event: " + e.event] else [];
  }

  lemma FeedData(named: seq<string>, data: string)
    requires data != ""
    ensures var p := FeedAll(named);
      FeedAll(named + ["data: " + data] + [""]) == Parser(NO_EVENT, p.sent + [p.current.(data := data)])
  {
    FeedOne(named, "data: " + data);
    FeedFields(FeedAll(named), data);
    FeedOne(named + ["data: " + data], "");
  }

  /** A block fed between events sends exactly its event. */
  lemma FeedBlock(lines: seq<string>, e: Event)
    requires FeedAll(lines).current == NO_EVENT && e.data != ""
    ensures FeedAll(lines + BlockOf(e)) == Parser(NO_EVENT, FeedAll(lines).sent + [e])
  {
    FeedHeader(lines, e);
    FeedData(lines + HeaderOf(e), e.data);
    BlockInParts(lines, e);
  }

  lemma BlockInParts(lines: seq<string>, e: Event)
    ensures lines + BlockOf(e) == lines + HeaderOf(e) + ["data: " + e.data] + [""]
  {
  }

  lemma {:induction false} FeedBlocks(events: seq<Event>)
    requires forall e | e in events :: e.data != ""
    ensures FeedAll(BlocksOf(events)) == Parser(NO_EVENT, events)
  {
    if events == [] {
    } else {
      var before, last := events[..|events| - 1], events[|events| - 1];
      FeedBlocks(before);
      FeedBlock(BlocksOf(before), last);
      assert events == before + [last];
    }
  }

  lemma TrimLine(line: string, crlf: bool)
    requires FieldText(line)
    ensures TrimEol(line + if crlf then "\r" else "") == line
  {
    if crlf {
      assert (line + "\r")[..|line|] == line;
    } else {
      assert line + "" == line;
    }
  }

  lemma ScanOneMore(text: string, line: string, crlf: bool)
    requires FieldText(line) && Scan(text).rest == ""
    ensures var more := Scan(text + line + Eol(crlf));
      more.rest == "" && TrimAll(more.lines) == TrimAll(Scan(text).lines) + [line]
  {
    var raw := line + if crlf then "\r" else "";
    assert text + line + Eol(crlf) == text + raw + "\n";
    ScanLastLine(text, raw);
    TrimLine(line, crlf);
  }

  lemma AssembleOneMore(lines: seq<string>, crlf: int -> bool)
    requires lines != []
    ensures var n := |lines| - 1; Assemble(lines, crlf) == Assemble(lines[..n], crlf) + lines[n] + Eol(crlf(n))
  {
  }

  /** Scanning and trimming recovers the lines, whatever their endings. */
  lemma {:induction false} AssembledLines(lines: seq<string>, crlf: int -> bool)
    requires forall l | l in lines :: FieldText(l)
    ensures TrimAll(Scan(Assemble(lines, crlf)).lines) == lines && Scan(Assemble(lines, crlf)).rest == ""
  {
    if lines == [] {
    } else {
      var n := |lines| - 1;
      var text := Assemble(lines[..n], crlf);
      AssembledLines(lines[..n], crlf);
      assert lines[n] in lines;
      ScanOneMore(text, lines[n], crlf(n));
      AssembleOneMore(lines, crlf);
      assert lines == lines[..n] + [lines[n]];
    }
  }

  lemma {:induction false} BlocksAreFieldText(events: seq<Event>)
    requires forall e | e in events :: Printable(e)
    ensures forall l | l in BlocksOf(events) :: FieldText(l)
  {
    if events == [] {
    } else {
      BlocksAreFieldText(events[..|events| - 1]);
      var e := events[|events| - 1];
      assert Printable(e);
      PrefixIsFieldText("id: ", e.id);
      PrefixIsFieldText("event: ", e.event);
      PrefixIsFieldText("data: ", e.data);
      assert forall l | l in BlockOf(e) :: l in ["id: " + e.id, "event: " + e.event, "data: " + e.data, ""];
    }
  }

  lemma PrefixIsFieldText(a: string, b: string)
    requires FieldText(a) && FieldText(b)
    ensures FieldText(a + b)
  {
  }

  /** Parsing what was printed gives the events back, for any mixture of line endings; a read error comes last, as an event. */
  lemma PrintThenParse(events: seq<Event>, crlf: int -> bool)
    requires forall e | e in events :: Printable(e)
    ensures Events(Assemble(BlocksOf(events), crlf), EndOfFile) == events
    ensures forall message :: Events(Assemble(BlocksOf(events), crlf), ReadError(message)) == events + [Event("error", message, "")]
  {
    BlocksAreFieldText(events);
    AssembledLines(BlocksOf(events), crlf);
    FeedBlocks(events);
    assert events + [] == events;
  }

  // ---------------------------------------------------------------- the standard's interpretation

  /** Section 9.2.6: the data and event type buffers, and the messages dispatched as (type, data). */
  datatype Standard = Standard(eventType: string, data: string, dispatched: seq<(string, string)>)

  /** The position of the first colon, or the length of the line. */
  function Colon(line: string): (n: nat)
    ensures n <= |line|
    ensures forall i | 0 <= i < n :: line[i] != ':'
    ensures n < |line| ==> line[n] == ':'
  {
    if line == "" || line[0] == ':' then 0 else 1 + Colon(line[1..])
  }

  function FieldName(line: string): string {
    line[..Colon(line)]
  }

  /** What follows the colon, without one leading space. */
  function FieldValue(line: string): string {
    var n := Colon(line);
    if n == |line| then ""
    else if n + 1 < |line| && line[n + 1] == ' ' then line[n + 2..]
    else line[n + 1..]
  }

  function Interpret(w: Standard, line: string): Standard {
    if line == "" then
      if w.data == "" then w.(eventType := "")
      else Standard("", "", w.dispatched + [(if w.eventType == "" then "message" else w.eventType, w.data[..|w.data| - 1])])
    else if line[0] == ':' then w
    else if FieldName(line) == "event" then w.(eventType := FieldValue(line))
    else if FieldName(line) == "data" then w.(data := w.data + FieldValue(line) + "\n")
    else w
  }

  function InterpretAll(lines: seq<string>): Standard {
    if lines == [] then Standard("", "", [])
    else Interpret(InterpretAll(lines[..|lines| - 1]), lines[|lines| - 1])
  }

  /** Line splitting of the standard: CRLF, LF and CR each end a line. */
  datatype LineReader = LineReader(lines: seq<string>, rest: string, afterCR: bool)

  function ReadLines(text: string): LineReader {
    if text == "" then LineReader([], "", false)
    else
      var r, c := ReadLines(text[..|text| - 1]), text[|text| - 1];
      if c == '\n' && r.afterCR then LineReader(r.lines, r.rest, false)
      else if c == '\n' || c == '\r' then LineReader(r.lines + [r.rest], "", c == '\r')
      else LineReader(r.lines, r.rest + [c], false)
  }

  /** The (type, data) pairs the standard dispatches for a text. */
  function Dispatched(text: string): seq<(string, string)> {
    InterpretAll(ReadLines(text).lines).dispatched
  }

  lemma {:induction false} ReadUnterminated(text: string, line: string)
    requires FieldText(line)
    ensures line != "" ==>
      ReadLines(text + line) == LineReader(ReadLines(text).lines, ReadLines(text).rest + line, false)
  {
    if line != "" {
      var init, c := line[..|line| - 1], line[|line| - 1];
      ReadUnterminated(text, init);
      assert (text + line)[..|text + line| - 1] == text + init;
      if init == "" {
        assert text + init == text;
      }
      assert line == init + [c];
    }
  }

  lemma ReadTerminator(text: string)
    requires !ReadLines(text).afterCR
    ensures ReadLines(text + "\n") == LineReader(ReadLines(text).lines + [ReadLines(text).rest], "", false)
    ensures ReadLines(text + "\r\n") == LineReader(ReadLines(text).lines + [ReadLines(text).rest], "", false)
  {
    assert (text + "\n")[..|text|] == text;
    assert (text + "\r")[..|text|] == text;
    assert (text + "\r\n")[..|text| + 1] == text + "\r";
  }

  lemma ReadOneMore(text: string, line: string, crlf: bool)
    requires FieldText(line) && ReadLines(text).rest == "" && !ReadLines(text).afterCR
    ensures ReadLines(text + line + Eol(crlf)) == LineReader(ReadLines(text).lines + [line], "", false)
  {
    ReadUnterminated(text, line);
    assert text + "" == text && "" + line == line;
    ReadTerminator(text + line);
  }

  lemma {:induction false} AssembledForStandard(lines: seq<string>, crlf: int -> bool)
    requires forall l | l in lines :: FieldText(l)
    ensures ReadLines(Assemble(lines, crlf)) == LineReader(lines, "", false)
  {
    if lines == [] {
    } else {
      var n := |lines| - 1;
      var text := Assemble(lines[..n], crlf);
      AssembledForStandard(lines[..n], crlf);
      assert lines[n] in lines;
      ReadOneMore(text, lines[n], crlf(n));
      AssembleOneMore(lines, crlf);
      assert lines == lines[..n] + [lines[n]];
    }
  }

  function TypeOf(name: string): string {
    if name == "" then "message" else name
  }

  function AllTypedData(events: seq<Event>): seq<(string, string)> {
    seq(|events|, i requires 0 <= i < |events| => (TypeOf(events[i].event), events[i].data))
  }

  lemma FieldOfLine(name: string, line: string)
    requires ':' !in name && name + ": " <= line
    ensures FieldName(line) == name && FieldValue(line) == line[|name| + 2..]
  {
    var n := Colon(line);
    assert line[|name|] == ':' && line[|name| + 1] == ' ';
    assert forall i | 0 <= i < |name| :: line[i] == name[i] && name[i] in name;
  }

  // ---------------------------------------------------------------- where the parser agrees with the standard

  /** The data fields since the last empty line. */
  function DataLines(lines: seq<string>): seq<string> {
    if lines == [] || lines[|lines| - 1] == "" then []
    else
      var before, line := lines[..|lines| - 1], lines[|lines| - 1];
      DataLines(before) + if FieldName(line) == "data" then [line] else []
  }

  /** The value of the last event field since the last empty line. */
  function NamedInBlock(lines: seq<string>): string {
    if lines == [] || lines[|lines| - 1] == "" then ""
    else
      var before, line := lines[..|lines| - 1], lines[|lines| - 1];
      if FieldName(line) == "event" then FieldValue(line) else NamedInBlock(before)
  }

  /** The value of the last event line with a space after its colon since the last block with a data field. */
  function NamedSinceData(lines: seq<string>): string {
    if lines == [] then ""
    else
      var before, line := lines[..|lines| - 1], lines[|lines| - 1];
      if line == "" && DataLines(before) != [] then ""
      else if "event: " <= line then line[|"event: "|..]
      else NamedSinceData(before)
  }

  /** One data field, with a space after its colon and a value that is not empty. */
  predicate OneSpacedData(data: seq<string>) {
    |data| == 1 && "data: " < data[0]
  }

  /**
    The block that the lines end with has no data field, or has exactly one, spaced and not empty, and
    the spaced event names up to it since the last block with data give the type its own event fields give.
  */
  predicate BlockAgrees(lines: seq<string>) {
    || DataLines(lines) == []
    || (OneSpacedData(DataLines(lines)) && TypeOf(NamedSinceData(lines)) == TypeOf(NamedInBlock(lines)))
  }

  /** At every empty line the block before it agrees. */
  predicate Agreeable(lines: seq<string>) {
    forall i | 0 <= i < |lines| && lines[i] == "" :: BlockAgrees(lines[..i])
  }

  /** The standard's data buffer: the values of the data fields, each with a line feed. */
  function Buffer(data: seq<string>): string {
    if data == [] then "" else Buffer(data[..|data| - 1]) + FieldValue(data[|data| - 1]) + "\n"
  }

  /** The parser's data: the value of the last spaced data line since the last empty line. */
  function LastSpaced(lines: seq<string>): string {
    if lines == [] || lines[|lines| - 1] == "" then ""
    else
      var before, line := lines[..|lines| - 1], lines[|lines| - 1];
      if "data: " <= line then line[|"data: "|..] else LastSpaced(before)
  }

  lemma FieldStarts(line: string)
    ensures "data: " <= line ==> FieldName(line) == "data" && FieldValue(line) == line[6..] && !("event: " <= line)
    ensures "event: " <= line ==> FieldName(line) == "event" && FieldValue(line) == line[7..]
  {
    if "data: " <= line {
      FieldOfLine("data", line);
      assert line[0] == 'd' && "event: "[0] == 'e';
    }
    if "event: " <= line {
      FieldOfLine("event", line);
    }
  }

  /** What the standard and the parser hold of an unfinished block, for any lines. */
  lemma {:induction false} OpenBlock(lines: seq<string>)
    ensures InterpretAll(lines).data == Buffer(DataLines(lines))
    ensures InterpretAll(lines).eventType == NamedInBlock(lines)
    ensures FeedAll(lines).current.data == LastSpaced(lines)
  {
    if lines == [] {
    } else {
      var before, line := lines[..|lines| - 1], lines[|lines| - 1];
      OpenBlock(before);
      FieldStarts(line);
      assert DataLines(before) + [] == DataLines(before);
      assert (DataLines(before) + [line])[..|DataLines(before)|] == DataLines(before);
    }
  }

  /** The parser's data comes from one of the data fields. */
  lemma {:induction false} LastSpacedIsData(lines: seq<string>)
    requires forall l | l in lines :: FieldText(l)
    ensures LastSpaced(lines) != "" ==>
      exists d | d in DataLines(lines) :: "data: " < d && LastSpaced(lines) == d[6..] && FieldText(d)
  {
    if lines == [] {
    } else {
      var before, line := lines[..|lines| - 1], lines[|lines| - 1];
      LastSpacedIsData(before);
      FieldStarts(line);
      if "data: " <= line && line != "data: " {
        assert line in DataLines(lines);
      }
    }
  }

  lemma {:induction false} OneSpacedIsLast(lines: seq<string>)
    requires OneSpacedData(DataLines(lines))
    ensures LastSpaced(lines) == DataLines(lines)[0][6..] != ""
  {
    var before, line := lines[..|lines| - 1], lines[|lines| - 1];
    FieldStarts(line);
    if FieldName(line) == "data" {
    } else {
      OneSpacedIsLast(before);
    }
  }

  /** Two or more values are joined by a line feed. */
  lemma JoinedHasLineFeed(data: seq<string>)
    requires |data| >= 2
    ensures '\n' in Buffer(data)[..|Buffer(data)| - 1]
  {
    var init := Buffer(data[..|data| - 1]);
    assert Buffer(data)[..|Buffer(data)| - 1][|init| - 1] == '\n';
  }

  lemma OneValue(d: string)
    ensures Buffer([d]) == FieldValue(d) + "\n"
    ensures Buffer([d])[..|Buffer([d])| - 1] == FieldValue(d)
  {
    assert [d][..0] == [];
    assert "" + FieldValue(d) == FieldValue(d);
  }

  lemma OneDataIsSame(data: seq<string>, d: string)
    requires |data| == 1 && d in data && "data: " < d
    ensures OneSpacedData(data) && Buffer(data) == d[6..] + "\n"
  {
    assert data == [d];
    FieldStarts(d);
    OneValue(d);
  }

  lemma ManyDataAreNotSame(data: seq<string>, value: string)
    requires |data| >= 2 && FieldText(value)
    ensures Buffer(data) != "" && Buffer(data)[..|Buffer(data)| - 1] != value
  {
    JoinedHasLineFeed(data);
  }

  lemma SuffixIsFieldText(d: string, n: nat)
    requires FieldText(d) && n <= |d|
    ensures FieldText(d[n..])
  {
    forall c | c in d[n..] ensures c in d {
      var i :| 0 <= i < |d[n..]| && d[n..][i] == c;
      assert d[i + n] == c;
    }
  }

  /** If the parser sends at all, it sends the standard's data exactly if there is one data field. */
  lemma SameDataIff(lines: seq<string>)
    requires (forall l | l in lines :: FieldText(l)) && LastSpaced(lines) != ""
    ensures DataLines(lines) != []
    ensures var b := Buffer(DataLines(lines)); b != "" && (b[..|b| - 1] == LastSpaced(lines) <==> OneSpacedData(DataLines(lines)))
  {
    LastSpacedIsData(lines);
    var data := DataLines(lines);
    var d :| d in data && "data: " < d && LastSpaced(lines) == d[6..] && FieldText(d);
    if |data| == 1 {
      OneDataIsSame(data, d);
      assert (d[6..] + "\n")[..|d[6..]|] == d[6..];
    } else {
      SuffixIsFieldText(d, 6);
      ManyDataAreNotSame(data, d[6..]);
    }
  }

  lemma AgreeableOneMore(lines: seq<string>)
    requires lines != []
    ensures var before := lines[..|lines| - 1];
      Agreeable(lines) <==> Agreeable(before) && (lines[|lines| - 1] == "" ==> BlockAgrees(before))
  {
    var before := lines[..|lines| - 1];
    assert forall i | 0 <= i < |before| :: lines[i] == before[i] && lines[..i] == before[..i];
  }

  /** What was sent equals what was dispatched exactly on agreeable lines; it is never more. */
  ghost predicate Track(lines: seq<string>) {
    var sent, dispatched := AllTypedData(FeedAll(lines).sent), InterpretAll(lines).dispatched;
    && |sent| <= |dispatched|
    && (sent == dispatched <==> Agreeable(lines))
    && (Agreeable(lines) ==> FeedAll(lines).current.event == NamedSinceData(lines))
  }

  lemma SentOneMore(events: seq<Event>, e: Event)
    ensures AllTypedData(events + [e]) == AllTypedData(events) + [(TypeOf(e.event), e.data)]
  {
  }

  lemma AppendedDiffer<T>(a: seq<T>, x: T, b: seq<T>, y: T)
    ensures a + [x] == b + [y] <==> a == b && x == y
  {
    if a + [x] == b + [y] {
      assert a == (a + [x])[..|a|] && b == (b + [y])[..|b|];
      assert (a + [x])[|a|] == x && (b + [y])[|b|] == y;
    }
  }

  /** An empty line ends a block. */
  lemma TrackEmptyLine(before: seq<string>)
    requires Track(before) && forall l | l in before :: FieldText(l)
    ensures Track(before + [""])
  {
    var p, w := FeedAll(before), InterpretAll(before);
    FeedOne(before, "");
    InterpretOne(before, "");
    AgreeableOneMore(before + [""]);
    assert (before + [""])[..|before|] == before;
    OpenBlock(before);
    if DataLines(before) == [] {
      if LastSpaced(before) != "" {
        SameDataIff(before);
      }
    } else {
      assert Buffer(DataLines(before)) != "";
      if LastSpaced(before) == "" {
        if OneSpacedData(DataLines(before)) {
          OneSpacedIsLast(before);
        }
      } else {
        SameDataIff(before);
        SentOneMore(p.sent, p.current);
        AppendedDiffer(AllTypedData(p.sent), (TypeOf(p.current.event), p.current.data),
                       w.dispatched, (TypeOf(w.eventType), w.data[..|w.data| - 1]));
      }
    }
  }

  /** Any other line changes nothing that was sent. */
  lemma TrackField(before: seq<string>, line: string)
    requires Track(before) && line != ""
    ensures Track(before + [line])
  {
    FeedOne(before, line);
    InterpretOne(before, line);
    AgreeableOneMore(before + [line]);
    assert (before + [line])[..|before|] == before;
    FieldStarts(line);
  }

  lemma {:induction false} TrackLines(lines: seq<string>)
    requires forall l | l in lines :: FieldText(l)
    ensures Track(lines)
  {
    if lines == [] {
    } else {
      var before, line := lines[..|lines| - 1], lines[|lines| - 1];
      TrackLines(before);
      assert lines == before + [line];
      if line == "" {
        TrackEmptyLine(before);
      } else {
        TrackField(before, line);
      }
    }
  }

  lemma UnterminatedIsIgnored(text: string, rest: string)
    requires FieldText(rest) && Scan(text).rest == "" && ReadLines(text).rest == ""
    ensures Scan(text + rest).lines == Scan(text).lines && ReadLines(text + rest).lines == ReadLines(text).lines
  {
    ScanResumes(text, rest);
    ScanUnterminated(rest);
    assert "" + rest == rest;
    assert Scan(text).lines + [] == Scan(text).lines;
    ReadUnterminated(text, rest);
    assert text + "" == text;
  }

  /**
    For all lines free of CR and LF, with any mixture of line endings, and whatever follows the last of
    them, the parser sees the types and data that the standard dispatches if and only if every block agrees.
  */
  lemma AgreesWithStandardIff(lines: seq<string>, crlf: int -> bool, rest: string)
    requires FieldText(rest) && forall l | l in lines :: FieldText(l)
    ensures var text := Assemble(lines, crlf) + rest;
      AllTypedData(Events(text, EndOfFile)) == Dispatched(text) <==> Agreeable(lines)
  {
    AssembledLines(lines, crlf);
    AssembledForStandard(lines, crlf);
    UnterminatedIsIgnored(Assemble(lines, crlf), rest);
    TrackLines(lines);
    assert FeedAll(lines).sent + [] == FeedAll(lines).sent;
  }

  /** Each block has one data line, spaced and not empty, and event lines are spaced; so the LLM providers write. */
  predicate Regular(lines: seq<string>) {
    && (forall i | 0 <= i < |lines| && lines[i] == "" :: OneSpacedData(DataLines(lines[..i])))
    && (forall l | l in lines :: FieldName(l) == "event" ==> "event: " <= l)
  }

  lemma {:induction false} RegularNames(lines: seq<string>)
    requires Regular(lines)
    ensures NamedSinceData(lines) == NamedInBlock(lines)
  {
    if lines == [] {
    } else {
      var before, line := lines[..|lines| - 1], lines[|lines| - 1];
      RegularPrefix(lines, |before|);
      RegularNames(before);
      FieldStarts(line);
      assert line in lines;
    }
  }

  lemma RegularPrefix(lines: seq<string>, n: nat)
    requires Regular(lines) && n <= |lines|
    ensures Regular(lines[..n])
  {
    assert forall i | 0 <= i < n :: lines[..n][..i] == lines[..i];
  }

  lemma RegularIsAgreeable(lines: seq<string>)
    requires Regular(lines)
    ensures Agreeable(lines)
  {
    forall i | 0 <= i < |lines| && lines[i] == "" ensures BlockAgrees(lines[..i]) {
      RegularPrefix(lines, i);
      RegularNames(lines[..i]);
    }
  }

  lemma InterpretOne(lines: seq<string>, line: string)
    ensures InterpretAll(lines + [line]) == Interpret(InterpretAll(lines), line)
  {
    assert (lines + [line])[..|lines|] == lines;
  }

  lemma InterpretFields(w: Standard, s: string)
    ensures Interpret(w, "data: " + s) == w.(data := w.data + s + "\n")
    ensures Interpret(w, "event: " + s) == w.(eventType := s)
  {
    FieldOfLine("data", "data: " + s);
    FieldOfLine("event", "event: " + s);
    assert ("data: " + s)[0] == 'd' && ("event: " + s)[0] == 'e';
    assert ("data: " + s)[6..] == s && ("event: " + s)[7..] == s;
  }

  /** Two and three lines from the start. */
  lemma TwoLines(a: string, b: string)
    ensures FeedAll([a] + [b]) == Feed(Feed(Parser(NO_EVENT, []), a), b)
    ensures InterpretAll([a] + [b]) == Interpret(Interpret(Standard("", "", []), a), b)
  {
    assert [] + [a] == [a];
    FeedOne([], a);
    FeedOne([a], b);
    InterpretOne([], a);
    InterpretOne([a], b);
  }

  lemma ThreeLines(a: string, b: string, c: string)
    ensures FeedAll([a] + [b] + [c]) == Feed(Feed(Feed(Parser(NO_EVENT, []), a), b), c)
    ensures InterpretAll([a] + [b] + [c]) == Interpret(Interpret(Interpret(Standard("", "", []), a), b), c)
  {
    TwoLines(a, b);
    FeedOne([a] + [b], c);
    InterpretOne([a] + [b], c);
  }

  lemma WithoutLineFeed(s: string)
    ensures (s + "\n")[..|s + "\n"| - 1] == s
  {
  }

  lemma StandardJoins(a: string, b: string)
    ensures InterpretAll(["data: " + a] + ["data: " + b] + [""]).dispatched == [("message", a + "\n" + b)]
  {
    ThreeLines("data: " + a, "data: " + b, "");
    InterpretFields(Standard("", "", []), a);
    InterpretFields(Standard("", "" + a + "\n", []), b);
    assert "" + a == a;
    WithoutLineFeed(a + "\n" + b);
  }

  /** Where a block has two data lines the standard joins them; the parser keeps the last. */
  lemma DataLinesAreNotJoined(a: string, b: string)
    requires b != ""
    ensures FeedAll(["data: " + a] + ["data: " + b] + [""]).sent == [Event("", b, "")]
    ensures InterpretAll(["data: " + a] + ["data: " + b] + [""]).dispatched == [("message", a + "\n" + b)]
  {
    ThreeLines("data: " + a, "data: " + b, "");
    FeedFields(Parser(NO_EVENT, []), a);
    FeedFields(Parser(Event("", a, ""), []), b);
    StandardJoins(a, b);
  }

  /** Where a block names an event but has no data the standard forgets the name; the parser gives it to the next event. */
  lemma EventNameLeaks(name: string, a: string)
    requires a != "" && name != ""
    ensures FeedAll(["event: " + name] + [""] + ["data: " + a] + [""]).sent == [Event(name, a, "")]
    ensures InterpretAll(["event: " + name] + [""] + ["data: " + a] + [""]).dispatched == [("message", a)]
  {
    var lines := ["event: " + name] + [""] + ["data: " + a];
    ThreeLines("event: " + name, "", "data: " + a);
    FeedOne(lines, "");
    InterpretOne(lines, "");
    FeedFields(Parser(NO_EVENT, []), name);
    FeedFields(Parser(Event(name, "", ""), []), a);
    InterpretFields(Standard("", "", []), name);
    InterpretFields(Standard("", "", []), a);
    assert "" + a == a;
    WithoutLineFeed(a);
  }

  /** A data line without a value is nothing to the parser; the standard dispatches an empty message. */
  lemma EmptyDataIsLost()
    ensures FeedAll(["data: "] + [""]).sent == []
    ensures InterpretAll(["data: "] + [""]).dispatched == [("message", "")]
  {
    TwoLines("data: ", "");
    assert "data: " + "" == "data: " && "" + "" == "";
    FeedFields(Parser(NO_EVENT, []), "");
    InterpretFields(Standard("", "", []), "");
    WithoutLineFeed("");
  }

  lemma UnspacedField(name: string, value: string)
    requires ':' !in name && (value != "" ==> value[0] != ' ')
    ensures FieldName(name + ":" + value) == name && FieldValue(name + ":" + value) == value
    ensures !(name + ": " <= name + ":" + value)
  {
    var line := name + ":" + value;
    assert line[|name|] == ':' && line[|name| + 1..] == value;
    assert forall i | 0 <= i < |name| :: line[i] == name[i] && name[i] in name;
    assert (name + ": ")[|name| + 1] == ' ';
  }

  /** A data or event field without the space leaves the parser as it is, and reaches the standard. */
  lemma UnspacedData(p: Parser, w: Standard, value: string)
    requires value != "" ==> value[0] != ' '
    ensures Feed(p, "data:" + value) == p
    ensures Interpret(w, "data:" + value) == w.(data := w.data + value + "\n")
  {
    UnspacedField("data", value);
    assert "data" + ":" + value == "data:" + value && ("data:" + value)[0] == 'd';
    assert "event: "[0] == 'e' && "id: "[0] == 'i';
  }

  lemma UnspacedEvent(p: Parser, w: Standard, value: string)
    requires value != "" ==> value[0] != ' '
    ensures Feed(p, "event:" + value) == p
    ensures Interpret(w, "event:" + value) == w.(eventType := value)
  {
    UnspacedField("event", value);
    assert "event" + ":" + value == "event:" + value && ("event:" + value)[0] == 'e';
    assert "data: "[0] == 'd' && "id: "[0] == 'i';
  }

  /** A data line without the space is nothing to the parser; the standard dispatches it. */
  lemma UnspacedDataIsLost(a: string)
    requires a != "" ==> a[0] != ' '
    ensures FeedAll(["data:" + a] + [""]).sent == []
    ensures InterpretAll(["data:" + a] + [""]).dispatched == [("message", a)]
  {
    TwoLines("data:" + a, "");
    UnspacedData(Parser(NO_EVENT, []), Standard("", "", []), a);
    assert "" + a == a;
    WithoutLineFeed(a);
  }

  /** An event line without the space is nothing to the parser; the standard takes its name. */
  lemma UnspacedEventIsLost(name: string, a: string)
    requires name != "" && name[0] != ' ' && a != ""
    ensures FeedAll(["event:" + name] + ["data: " + a] + [""]).sent == [Event("", a, "")]
    ensures InterpretAll(["event:" + name] + ["data: " + a] + [""]).dispatched == [(name, a)]
  {
    ThreeLines("event:" + name, "data: " + a, "");
    UnspacedEvent(Parser(NO_EVENT, []), Standard("", "", []), name);
    FeedFields(Parser(NO_EVENT, []), a);
    InterpretFields(Standard(name, "", []), a);
    assert "" + a == a;
    WithoutLineFeed(a);
  }

  // ---------------------------------------------------------------- a CR without LF

  lemma ReadCR(text: string)
    requires !ReadLines(text).afterCR
    ensures ReadLines(text + "\r") == LineReader(ReadLines(text).lines + [ReadLines(text).rest], "", true)
  {
    assert (text + "\r")[..|text|] == text;
  }

  lemma ReadFirst(line: string)
    requires FieldText(line) && line != ""
    ensures ReadLines(line) == LineReader([], line, false)
  {
    ReadUnterminated("", line);
    assert "" + line == line;
  }

  lemma ScanTwoLines(line: string)
    requires '\n' !in line
    ensures Scan(line + "\n" + "\n").lines == [line, ""]
  {
    ScanFirstLine(line, "\n");
    ScanOneLine("");
    assert "" + "\n" == "\n";
  }

  lemma KeepsCR(a: string, b: string)
    requires FieldText(a) && FieldText(b)
    ensures var line := "data: " + (a + "\r" + "data: " + b); '\n' !in line && TrimEol(line) == line
  {
    var line := "data: " + (a + "\r" + "data: " + b);
    assert line[|line| - 1] == if b == "" then ' ' else b[|b| - 1];
    assert b != "" ==> b[|b| - 1] in b;
  }

  lemma StandardEndsAtCR(a: string, b: string)
    requires FieldText(a) && FieldText(b)
    ensures ReadLines("data: " + a + "\r" + ("data: " + b) + "\n" + "\n").lines == ["data: " + a] + ["data: " + b] + [""]
  {
    var t1, second := "data: " + a, "data: " + b;
    PrefixIsFieldText("data: ", a);
    PrefixIsFieldText("data: ", b);
    ReadFirst(t1);
    ReadCR(t1);
    ReadUnterminated(t1 + "\r", second);
    assert "" + second == second;
    ReadTerminator(t1 + "\r" + second);
    ReadTerminator(t1 + "\r" + second + "\n");
  }

  /** To the standard a CR alone ends a line; to the parser it is part of the data. */
  lemma LoneCRIsData(a: string, b: string)
    requires FieldText(a) && FieldText(b)
    ensures var text := "data: " + a + "\r" + ("data: " + b) + "\n" + "\n";
      && Events(text, EndOfFile) == [Event("", a + "\r" + "data: " + b, "")]
      && Dispatched(text) == [("message", a + "\n" + b)]
  {
    var value := a + "\r" + "data: " + b;
    var line := "data: " + value;
    assert "data: " + a + "\r" + ("data: " + b) == line;
    KeepsCR(a, b);
    ScanTwoLines(line);
    assert TrimAll([line, ""]) == [line] + [""];
    TwoLines(line, "");
    FeedFields(Parser(NO_EVENT, []), value);
    StandardEndsAtCR(a, b);
    StandardJoins(a, b);
  }

  lemma StandardEndsAtExtraCR(line: string)
    requires FieldText(line) && line != ""
    ensures ReadLines(line + "\r" + "\r" + "\n").lines == [line] + [""]
  {
    var t := line + "\r";
    ReadFirst(line);
    ReadCR(line);
    assert (t + "\r")[..|t|] == t;
    assert ReadLines(t + "\r") == LineReader([line] + [""], "", true);
    assert (t + "\r" + "\n")[..|t| + 1] == t + "\r";
  }

  lemma TrimOneCR(s: string)
    ensures TrimEol(s + "\r") == TrimEol(s)
  {
    assert (s + "\r")[..|s|] == s;
  }

  lemma ExtraCRIsTrimmed(line: string)
    requires FieldText(line)
    ensures TrimAll(Scan(line + "\r" + "\r" + "\n").lines) == [line]
  {
    ScanOneLine(line + "\r" + "\r");
    TrimOneCR(line + "\r");
    TrimOneCR(line);
    TrimLine(line, false);
    assert line + "" == line;
  }

  /** A second CR before the line ending: the standard sees an empty line after it and dispatches, the parser trims it. */
  lemma ExtraCREndsBlock(a: string)
    requires FieldText(a)
    ensures var text := "data: " + a + "\r" + "\r" + "\n";
      Events(text, EndOfFile) == [] && Dispatched(text) == [("message", a)]
  {
    PrefixIsFieldText("data: ", a);
    ExtraCRIsTrimmed("data: " + a);
    NothingSentYet(a);
    StandardEndsAtExtraCR("data: " + a);
    StandardDispatches(a);
  }

  lemma NothingSentYet(a: string)
    ensures FeedAll(["data: " + a]).sent + [] == []
  {
    OneLine("data: " + a);
    FeedFields(Parser(NO_EVENT, []), a);
  }

  lemma StandardDispatches(a: string)
    ensures InterpretAll(["data: " + a] + [""]).dispatched == [("message", a)]
  {
    TwoLines("data: " + a, "");
    InterpretFields(Standard("", "", []), a);
    assert "" + a == a;
    WithoutLineFeed(a);
  }

  lemma OneLine(line: string)
    ensures FeedAll([line]) == Feed(Parser(NO_EVENT, []), line)
  {
    assert [] + [line] == [line];
    FeedOne([], line);
  }

  // ---------------------------------------------------------------- the parser itself

  /** A buffered reader over the response body, and the parse loop. */
  class SSEParser {
    var unread: string
    const end: ReadEnd

    constructor (body: string, end: ReadEnd)
      ensures unread == body && this.end == end
    {
      unread := body;
      this.end := end;
    }

    /** `ReadString('\n')`: a whole line with its line feed, or what is left of the body and an end. */
    method ReadString() returns (line: string, atEnd: bool)
      modifies this`unread
      ensures old(unread) == line + unread
      ensures atEnd ==> unread == "" && '\n' !in line
      ensures !atEnd ==> line != "" && line[|line| - 1] == '\n' && '\n' !in line[..|line| - 1]
    {
      var i := 0;
      while i < |unread| && unread[i] != '\n'
        invariant i <= |unread|
        invariant '\n' !in unread[..i]
      {
        i := i + 1;
      }
      atEnd := i == |unread|;
      if !atEnd {
        i := i + 1;
      }
      line, unread := unread[..i], unread[i..];
    }

    method Parse() returns (sent: seq<Event>)
      modifies this`unread
      ensures sent == Events(old(unread), end)
    {
      var event := NO_EVENT;
      sent := [];
      ghost var lines: seq<string> := [];
      while true
        invariant lines + Scan(unread).lines == Scan(old(unread)).lines
        invariant Parser(event, sent) == FeedAll(TrimAll(lines))
        decreases |unread|
      {
        ghost var before := unread;
        var line, atEnd := ReadString();
        if atEnd {
          NothingMore(lines, before, line);
          if end.ReadError? {
            sent := sent + [Event("error", end.message, "")];
          } else {
            assert sent + [] == sent;
          }
          return;
        }
        ghost var body := line[..|line| - 1];
        assert before == body + "\n" + unread && line == body + "\n";
        OneMoreScanned(lines, body, unread);
        OneMoreFed(lines, body);
        lines := lines + [body];
        event, sent := HandleLine(event, sent, TrimEol(line));
      }
    }

    /** Lines 56-71: one trimmed line. */
    method HandleLine(current: Event, before: seq<Event>, line: string) returns (event: Event, sent: seq<Event>)
      ensures Parser(event, sent) == Feed(Parser(current, before), line)
    {
      event, sent := current, before;
      if line == "" {
        if event.data != "" {
          sent := sent + [event];
          event := NO_EVENT;
        }
        return;
      }
      if "data: " <= line {
        event := event.(data := line[|"data: "|..]);
      } else if "event: " <= line {
        event := event.(event := line[|"event: "|..]);
      } else if "id: " <= line {
        event := event.(id := line[|"id: "|..]);
      }
    }
  }

  /** Splitting off one terminated line. */
  lemma OneMoreScanned(lines: seq<string>, body: string, rest: string)
    requires '\n' !in body
    ensures lines + Scan(body + "\n" + rest).lines == lines + [body] + Scan(rest).lines
  {
    ScanFirstLine(body, rest);
    assert Scan(body + "\n" + rest).lines == [body] + Scan(rest).lines;
    Regrouped(lines, [body], Scan(rest).lines);
  }

  lemma Regrouped(a: seq<string>, b: seq<string>, c: seq<string>)
    ensures a + (b + c) == a + b + c
  {
  }

  /** Feeding one terminated line. */
  lemma OneMoreFed(lines: seq<string>, body: string)
    ensures FeedAll(TrimAll(lines + [body])) == Feed(FeedAll(TrimAll(lines)), TrimEol(body + "\n"))
  {
    TrimmedOnce(body);
    TrimAllOne(lines, body);
    FeedOne(TrimAll(lines), TrimEol(body));
  }

  lemma TrimAllOne(lines: seq<string>, body: string)
    ensures TrimAll(lines + [body]) == TrimAll(lines) + [TrimEol(body)]
  {
  }

  lemma NothingMore(lines: seq<string>, text: string, line: string)
    requires text == line + "" && '\n' !in line
    ensures lines + Scan(text).lines == lines
  {
    ScanUnterminated(line);
    assert line + "" == line;
    assert lines + [] == lines;
  }

  lemma TrimmedOnce(line: string)
    ensures TrimEol(line + "\n") == TrimEol(line)
  {
    assert (line + "\n")[..|line|] == line;
  }
}
