/**
  The streamed chat completion, from the gateway's writer (`handleChatCompletions` and
  `toOpenAISSEChunk` in `internal/riverbank/handlers.go`) to the browser's reader (`streamChat` in
  `web/src/lib/api.ts`).

  JSON is an arbitrary codec that never prints a line feed, never prints the end marker, and reads
  back what it printed.  The stamp stands for the random id and the time that each chunk carries
  and the reader ignores.
*/
module Gateway {
  import opened Common
  import opened Lines
  import opened Pipeline
  import Sse

  /** The parts of a JSON chunk that differ between chunk types. */
  datatype Body = Delta(content: string) | Failure(message: string) | Finish | Nothing

  datatype Codec = Codec(encode: (nat, Body) -> string, decode: string -> Option<Body>)

  const DONE := "[DONE]"

  ghost predicate ValidCodec(codec: Codec) {
    forall stamp, body ::
      var json := codec.encode(stamp, body);
      '\n' !in json && json != DONE && codec.decode(json) == Some(body)
  }

  // ---------------------------------------------------------------- the gateway

  /** `toOpenAISSEChunk` */
  function BodyOf(chunk: Output): Body {
    match chunk
    case TextOut(content) => Delta(content)
    case ErrorOut(error) => Failure(error)
    case DoneOut => Finish
    case ResultOut(_) => Nothing
  }

  function DataLine(data: string): string {
    "data: " + data + "\n\n"
  }

  function WireChunks(codec: Codec, output: seq<Output>): string {
    if output == [] then ""
    else
      var n := |output| - 1;
      WireChunks(codec, output[..n]) + DataLine(codec.encode(n, BodyOf(output[n])))
  }

  /** The whole response body. */
  function Wire(codec: Codec, output: seq<Output>): string {
    WireChunks(codec, output) + DataLine(DONE)
  }

  /** The loop of `handleChatCompletions` over the output channel. */
  method WriteStream(codec: Codec, output: seq<Output>) returns (written: string)
    ensures written == Wire(codec, output)
  {
    written := "";
    for i := 0 to |output|
      invariant written == WireChunks(codec, output[..i])
    {
      assert output[..i + 1][..i] == output[..i];
      var json := codec.encode(i, BodyOf(output[i]));
      written := written + ("data: " + json + "\n\n");
    }
    assert output[..|output|] == output;
    written := written + "data: [DONE]\n\n";
  }

  // ---------------------------------------------------------------- the browser

  datatype Yield = Content(content: string) | Finished

  datatype Client = Client(yielded: seq<Yield>, returned: bool)

  /** One complete line of the response. */
  function Take(codec: Codec, client: Client, line: string): Client {
    if client.returned || !("data: " <= line) then client
    else
      var data := line[|"data: "|..];
      if data == DONE then Client(client.yielded + [Finished], true)
      else
        match codec.decode(data)
        case Some(Delta(content)) =>
          if content != "" then client.(yielded := client.yielded + [Content(content)]) else client
        case _ => client
  }

  function TakeAll(codec: Codec, lines: seq<string>): Client {
    if lines == [] then Client([], false)
    else Take(codec, TakeAll(codec, lines[..|lines| - 1]), lines[|lines| - 1])
  }

  /** What the reader yields for a text, however it is cut into reads. */
  function Yielded(codec: Codec, text: string): seq<Yield> {
    TakeAll(codec, Scan(text).lines).yielded
  }

  lemma {:induction false} ReturnedIsFinal(codec: Codec, lines: seq<string>, n: nat)
    requires n <= |lines| && TakeAll(codec, lines[..n]).returned
    ensures TakeAll(codec, lines) == TakeAll(codec, lines[..n])
  {
    if n < |lines| {
      assert lines[..|lines| - 1][..n] == lines[..n];
      ReturnedIsFinal(codec, lines[..|lines| - 1], n);
    } else {
      assert lines[..n] == lines;
    }
  }

  lemma TakeOneMore(codec: Codec, lines: seq<string>, line: string)
    ensures TakeAll(codec, lines + [line]) == Take(codec, TakeAll(codec, lines), line)
  {
    assert (lines + [line])[..|lines|] == lines;
  }

  /** The loop over the complete lines of one read; `seen` are the lines of the reads before. */
  method TakeLines(codec: Codec, ghost seen: seq<string>, before: seq<Yield>, lines: seq<string>)
    returns (yielded: seq<Yield>, returned: bool)
    requires TakeAll(codec, seen) == Client(before, false)
    ensures TakeAll(codec, seen + lines) == Client(yielded, returned)
  {
    yielded, returned := before, false;
    assert seen + lines[..0] == seen;
    for j := 0 to |lines|
      invariant TakeAll(codec, seen + lines[..j]) == Client(yielded, false)
    {
      var line := lines[j];
      TakeOneMore(codec, seen + lines[..j], line);
      assert seen + lines[..j] + [line] == seen + lines[..j + 1];
      if !("data: " <= line) {
        continue;
      }
      var data := line[|"data: "|..];
      if data == DONE {
        assert (seen + lines)[..|seen| + j + 1] == seen + lines[..j + 1];
        ReturnedIsFinal(codec, seen + lines, |seen| + j + 1);
        return yielded + [Finished], true;
      }
      match codec.decode(data) {
        case Some(Delta(content)) =>
          if content != "" {
            yielded := yielded + [Content(content)];
          }
        case _ =>
      }
    }
    assert lines[..|lines|] == lines;
  }

  /** `streamChat`: buffered line splitting over the reads of the response body. */
  method StreamChat(codec: Codec, pieces: seq<string>) returns (yielded: seq<Yield>)
    ensures yielded == Yielded(codec, Concat(pieces))
  {
    yielded := [];
    var buffer := "";
    ghost var text := "";
    for i := 0 to |pieces|
      invariant text == Concat(pieces[..i])
      invariant Scan(text).rest == buffer
      invariant TakeAll(codec, Scan(text).lines) == Client(yielded, false)
    {
      assert pieces[..i + 1][..i] == pieces[..i];
      ScanResumes(text, pieces[i]);
      buffer := buffer + pieces[i];
      var split := Scan(buffer);
      var returned;
      yielded, returned := TakeLines(codec, Scan(text).lines, yielded, split.lines);
      if returned {
        ReadPrefix(codec, pieces, i + 1);
        return;
      }
      text := text + pieces[i];
      buffer := split.rest;
    }
    assert pieces[..|pieces|] == pieces;
  }

  /** Once the reader has returned, the reads it never made do not matter. */
  lemma ReadPrefix(codec: Codec, pieces: seq<string>, n: nat)
    requires n <= |pieces|
    ensures TakeAll(codec, Scan(Concat(pieces[..n])).lines).returned ==>
      Yielded(codec, Concat(pieces)) == Yielded(codec, Concat(pieces[..n]))
  {
    var rest := ConcatPrefix(pieces, n);
    var text := Concat(pieces[..n]);
    ScanResumes(text, rest);
    var lines := Scan(text + rest).lines;
    assert lines[..|Scan(text).lines|] == Scan(text).lines;
    if TakeAll(codec, Scan(text).lines).returned {
      ReturnedIsFinal(codec, lines, |Scan(text).lines|);
    }
  }

  lemma {:induction false} ConcatPrefix(texts: seq<string>, n: nat) returns (rest: string)
    requires n <= |texts|
    ensures Concat(texts) == Concat(texts[..n]) + rest
  {
    if n == |texts| {
      rest := "";
      assert texts[..n] == texts && Concat(texts) + "" == Concat(texts);
    } else {
      var init := texts[..|texts| - 1];
      rest := ConcatPrefix(init, n);
      assert init[..n] == texts[..n];
      rest := rest + texts[|texts| - 1];
    }
  }

  // ---------------------------------------------------------------- reader and writer together

  /** The non-empty text contents of an output, in order. */
  function Contents(output: seq<Output>): seq<Yield> {
    if output == [] then []
    else
      var before := Contents(output[..|output| - 1]);
      match output[|output| - 1]
      case TextOut(content) => if content != "" then before + [Content(content)] else before
      case _ => before
  }

  lemma ScanDataLine(text: string, data: string)
    requires Scan(text).rest == "" && '\n' !in data
    ensures Scan(text + DataLine(data)) == Split(Scan(text).lines + ["data: " + data, ""], "")
  {
    var line := "data: " + data;
    ScanLastLine(text, line);
    ScanLastLine(text + line + "\n", "");
    assert text + line + "\n" + "" + "\n" == text + DataLine(data);
    assert Scan(text).lines + [line] + [""] == Scan(text).lines + [line, ""];
  }

  lemma TakeDataLine(codec: Codec, lines: seq<string>, data: string)
    ensures TakeAll(codec, lines + ["data: " + data, ""]) == Take(codec, TakeAll(codec, lines), "data: " + data)
    ensures ("data: " + data)[|"data: "|..] == data
  {
    var more := lines + ["data: " + data, ""];
    assert more[..|more| - 1] == lines + ["data: " + data];
    assert (lines + ["data: " + data])[..|lines|] == lines;
  }

  lemma {:induction false} WireChunksAreRead(codec: Codec, output: seq<Output>)
    requires ValidCodec(codec)
    ensures Scan(WireChunks(codec, output)).rest == ""
    ensures TakeAll(codec, Scan(WireChunks(codec, output)).lines) == Client(Contents(output), false)
  {
    if output == [] {
    } else {
      var n := |output| - 1;
      WireChunksAreRead(codec, output[..n]);
      var text, json := WireChunks(codec, output[..n]), codec.encode(n, BodyOf(output[n]));
      ScanDataLine(text, json);
      TakeDataLine(codec, Scan(text).lines, json);
    }
  }

  /**
    For every output and every way of cutting the response into reads, the reader yields exactly
    the non-empty text contents in order, then one end marker, and nothing after.
  */
  lemma ReaderInvertsWriter(codec: Codec, output: seq<Output>)
    requires ValidCodec(codec)
    ensures Yielded(codec, Wire(codec, output)) == Contents(output) + [Finished]
  {
    WireChunksAreRead(codec, output);
    ScanDataLine(WireChunks(codec, output), DONE);
    TakeDataLine(codec, Scan(WireChunks(codec, output)).lines, DONE);
  }

  /** The composition of the two loops. */
  method StreamThrough(codec: Codec, output: seq<Output>, pieces: seq<string>) returns (yielded: seq<Yield>)
    requires ValidCodec(codec) && Concat(pieces) == Wire(codec, output)
    ensures yielded == Contents(output) + [Finished]
  {
    ReaderInvertsWriter(codec, output);
    yielded := StreamChat(codec, pieces);
  }

  /** The browser cannot tell a failed run from a done one: the error chunk is skipped and the end marker follows. */
  lemma FailureLooksDone(codec: Codec, output: seq<Output>, error: string)
    requires ValidCodec(codec)
    ensures Yielded(codec, Wire(codec, output + [ErrorOut(error)])) == Yielded(codec, Wire(codec, output + [DoneOut]))
  {
    ReaderInvertsWriter(codec, output + [ErrorOut(error)]);
    ReaderInvertsWriter(codec, output + [DoneOut]);
    assert (output + [ErrorOut(error)])[..|output|] == output && (output + [DoneOut])[..|output|] == output;
  }

  // ---------------------------------------------------------------- any other client

  /** JSON text is one line without control characters. */
  ghost predicate OneLine(codec: Codec) {
    forall stamp, body :: Sse.FieldText(codec.encode(stamp, body)) && codec.encode(stamp, body) != ""
  }

  /** No line of the response ends in CRLF. */
  const LF_ONLY: int -> bool := _ => false

  function DataEvents(codec: Codec, output: seq<Output>): seq<Sse.Event> {
    seq(|output|, i requires 0 <= i < |output| => Sse.Event("", codec.encode(i, BodyOf(output[i])), ""))
  }

  lemma AssembleDataLine(events: seq<Sse.Event>, data: string)
    ensures Sse.Assemble(Sse.BlocksOf(events + [Sse.Event("", data, "")]), LF_ONLY)
         == Sse.Assemble(Sse.BlocksOf(events), LF_ONLY) + DataLine(data)
  {
    var e, lines := Sse.Event("", data, ""), Sse.BlocksOf(events);
    assert (events + [e])[..|events|] == events;
    assert Sse.BlockOf(e) == ["data: " + data] + [""];
    var one := lines + ["data: " + data];
    assert lines + Sse.BlockOf(e) == one + [""];
    assert one[..|lines|] == lines && (one + [""])[..|one|] == one;
    var text := Sse.Assemble(lines, LF_ONLY);
    assert text + ("data: " + data) + "\n" + "" + "\n" == text + DataLine(data);
  }

  lemma {:induction false} WireIsEventStream(codec: Codec, output: seq<Output>)
    ensures WireChunks(codec, output) == Sse.Assemble(Sse.BlocksOf(DataEvents(codec, output)), LF_ONLY)
  {
    if output == [] {
    } else {
      var n := |output| - 1;
      WireIsEventStream(codec, output[..n]);
      AssembleDataLine(DataEvents(codec, output[..n]), codec.encode(n, BodyOf(output[n])));
      assert DataEvents(codec, output)
          == DataEvents(codec, output[..n]) + [Sse.Event("", codec.encode(n, BodyOf(output[n])), "")];
    }
  }

  /** The body tells the chunk, apart from the contents of tool results. */
  predicate Tells(body: Body, chunk: Output) {
    match chunk
    case TextOut(content) => body == Delta(content)
    case ErrorOut(error) => body == Failure(error)
    case DoneOut => body == Finish
    case ResultOut(_) => body == Nothing
  }

  /**
    A client that parses the response as an event stream and decodes its data sees one event for every chunk
    of the output, errors and tool results included, and then the end marker.
  */
  lemma EventStreamTellsOutput(codec: Codec, output: seq<Output>)
    requires ValidCodec(codec) && OneLine(codec)
    ensures var events := Sse.Events(Wire(codec, output), Sse.EndOfFile);
      && |events| == |output| + 1 && events[|output|] == Sse.Event("", "[DONE]", "")
      && forall i | 0 <= i < |output| ::
           var body := codec.decode(events[i].data); events[i].event == "" && body.Some? && Tells(body.value, output[i])
  {
    WireEvents(codec, output);
    var events := DataEvents(codec, output);
    forall i | 0 <= i < |output| ensures codec.decode(events[i].data) == Some(BodyOf(output[i])) {
      EncodedIsDecoded(codec, i, BodyOf(output[i]));
    }
  }

  lemma EncodedIsDecoded(codec: Codec, stamp: nat, body: Body)
    requires ValidCodec(codec)
    ensures codec.decode(codec.encode(stamp, body)) == Some(body)
  {
  }

  lemma AllPrintable(codec: Codec, output: seq<Output>)
    requires OneLine(codec)
    ensures forall e | e in DataEvents(codec, output) + [Sse.Event("", DONE, "")] :: Sse.Printable(e)
  {
    var all := DataEvents(codec, output) + [Sse.Event("", DONE, "")];
    forall e | e in all ensures Sse.Printable(e) {
      var i :| 0 <= i < |all| && all[i] == e;
      if i < |output| {
        assert Sse.FieldText(codec.encode(i, BodyOf(output[i])));
      }
    }
  }

  lemma WireEvents(codec: Codec, output: seq<Output>)
    requires OneLine(codec)
    ensures Sse.Events(Wire(codec, output), Sse.EndOfFile) == DataEvents(codec, output) + [Sse.Event("", DONE, "")]
  {
    WireIsEventStream(codec, output);
    AssembleDataLine(DataEvents(codec, output), DONE);
    AllPrintable(codec, output);
    Sse.PrintThenParse(DataEvents(codec, output) + [Sse.Event("", DONE, "")], LF_ONLY);
  }

  // ---------------------------------------------------------------- connections that break off

  lemma {:induction false} TakeAllGrows(codec: Codec, lines: seq<string>, n: nat)
    requires n <= |lines|
    ensures TakeAll(codec, lines[..n]).yielded <= TakeAll(codec, lines).yielded
  {
    if n < |lines| {
      assert lines[..|lines| - 1][..n] == lines[..n];
      TakeAllGrows(codec, lines[..|lines| - 1], n);
    } else {
      assert lines[..n] == lines;
    }
  }

  lemma ScanGrows(a: string, b: string)
    ensures Scan(a).lines <= Scan(a + b).lines
  {
    ScanResumes(a, b);
  }

  /** A response cut off anywhere yields a prefix of the whole: no content is torn, reordered or made up. */
  lemma BrokenConnectionYieldsPrefix(codec: Codec, output: seq<Output>, received: string, lost: string)
    requires ValidCodec(codec) && received + lost == Wire(codec, output)
    ensures Yielded(codec, received) <= Contents(output) + [Finished]
  {
    ReaderInvertsWriter(codec, output);
    ScanGrows(received, lost);
    var lines := Scan(Wire(codec, output)).lines;
    TakeAllGrows(codec, lines, |Scan(received).lines|);
    assert lines[..|Scan(received).lines|] == Scan(received).lines;
  }

  /** The response up to the end marker, before the line feeds that follow it. */
  function Head(codec: Codec, output: seq<Output>): string {
    WireChunks(codec, output) + "data: [DONE]"
  }

  /** Without the line feed after it the end marker is not seen. */
  lemma HeadYieldsContents(codec: Codec, output: seq<Output>)
    requires ValidCodec(codec)
    ensures Yielded(codec, Head(codec, output)) == Contents(output)
  {
    WireChunksAreRead(codec, output);
    ScanResumes(WireChunks(codec, output), "data: [DONE]");
    ScanUnterminated("data: [DONE]");
    assert "" + "data: [DONE]" == "data: [DONE]";
    assert Scan(WireChunks(codec, output)).lines + [] == Scan(WireChunks(codec, output)).lines;
  }

  lemma TakeMarker(codec: Codec, client: Client)
    requires !client.returned
    ensures Take(codec, client, "data: [DONE]") == Client(client.yielded + [Finished], true)
  {
    assert "data: [DONE]"[|"data: "|..] == DONE;
  }

  /** With it, the reader is done. */
  lemma TerminatedHeadIsFinished(codec: Codec, output: seq<Output>)
    requires ValidCodec(codec)
    ensures Yielded(codec, Head(codec, output) + "\n") == Contents(output) + [Finished]
  {
    WireChunksAreRead(codec, output);
    var text := WireChunks(codec, output);
    ScanLastLine(text, "data: [DONE]");
    TakeOneMore(codec, Scan(text).lines, "data: [DONE]");
    TakeMarker(codec, TakeAll(codec, Scan(text).lines));
  }

  lemma CutPoints(codec: Codec, output: seq<Output>, received: string, lost: string)
    requires received + lost == Wire(codec, output)
    ensures |lost| >= 2 ==> received <= Head(codec, output)
    ensures |lost| == 1 ==> received == Head(codec, output) + "\n"
    ensures |lost| == 0 ==> received == Wire(codec, output)
  {
    assert Wire(codec, output) == Head(codec, output) + "\n" + "\n";
    assert received == Wire(codec, output)[..|received|];
  }

  /** The end marker is yielded if and only if the response arrived up to the line feed after it. */
  lemma FinishedMeansComplete(codec: Codec, output: seq<Output>, received: string, lost: string)
    requires ValidCodec(codec) && received + lost == Wire(codec, output)
    ensures Finished in Yielded(codec, received) <==> |lost| <= 1
  {
    CutPoints(codec, output, received, lost);
    if |lost| >= 2 {
      HeadYieldsContents(codec, output);
      ContentsNeverFinish(output);
      var head := Head(codec, output);
      var cut := head[|received|..];
      assert head == received + cut;
      ScanGrows(received, cut);
      TakeAllGrows(codec, Scan(head).lines, |Scan(received).lines|);
      assert Scan(head).lines[..|Scan(received).lines|] == Scan(received).lines;
    } else if |lost| == 1 {
      TerminatedHeadIsFinished(codec, output);
    } else {
      ReaderInvertsWriter(codec, output);
    }
  }

  lemma {:induction false} ContentsNeverFinish(output: seq<Output>)
    ensures Finished !in Contents(output)
  {
    if output == [] {
    } else {
      ContentsNeverFinish(output[..|output| - 1]);
    }
  }

  // ---------------------------------------------------------------- from the transcript to the browser

  function Shown(yielded: seq<Yield>): string {
    if yielded == [] then ""
    else Shown(yielded[..|yielded| - 1]) + match yielded[|yielded| - 1] case Content(c) => c case Finished => ""
  }

  lemma {:induction false} ShownContents(output: seq<Output>)
    ensures Shown(Contents(output)) == TextOf(output)
  {
    if output == [] {
    } else {
      var before := output[..|output| - 1];
      ShownContents(before);
      assert TextOf(before) + "" == TextOf(before);
      match output[|output| - 1] {
        case TextOut(content) =>
          assert (Contents(before) + [Content(content)])[..|Contents(before)|] == Contents(before);
        case _ =>
      }
    }
  }

  /** What the browser shows is the text sent on the output channel. */
  lemma BrowserShowsOutput(codec: Codec, output: seq<Output>)
    requires ValidCodec(codec)
    ensures Shown(Yielded(codec, Wire(codec, output))) == TextOf(output)
  {
    ReaderInvertsWriter(codec, output);
    ShownContents(output);
    assert (Contents(output) + [Finished])[..|Contents(output)|] == Contents(output);
    assert TextOf(output) + "" == TextOf(output);
  }

  /** On a done run, what the browser shows is the transcript: the appended messages' text and the final answer. */
  lemma BrowserShowsTranscript(codec: Codec, env: Env, setup: Setup)
    requires ValidCodec(codec) && BareSetup(setup) && IsDone(Execute(env, setup))
    ensures var end := Execute(env, setup);
      Shown(Yielded(codec, Wire(codec, end.output))) == ContentsOf(end.added) + end.content
  {
    BrowserShowsOutput(codec, Execute(env, setup).output);
    StreamedTextIsTranscript(env, setup);
  }
}
