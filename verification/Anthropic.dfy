/**
  The Anthropic content-block decoder, `parseAnthropicEvent` in
  `internal/burrow/llm/providers/anthropic.go`.  An event is what the JSON decoder makes of one
  server-sent event.
*/
module Anthropic {
  import opened Common
  import opened Llm

  datatype Event =
    | MessageStart(inputTokens: int)
    | BlockStart(kind: string, id: string, name: string)
    | TextDelta(text: string)
    | InputDelta(partialJson: string)
    | OtherDelta
    | BlockStop
    | MessageDelta(stopReason: string)
    | MessageStop
    | ErrorEvent(data: string)
    | Ignored                        // an unknown event, or data that does not decode

  /** The tool block being received; `id` is empty between tool blocks. */
  datatype Decoder = Decoder(id: string, name: string, input: string)

  const FRESH := Decoder("", "", "")

  datatype Decoded = Decoded(chunks: seq<Chunk>, decoder: Decoder)

  function Step(d: Decoder, e: Event): Decoded {
    match e
    case MessageStart(tokens) => Decoded(if tokens > 0 then [Usage] else [], d)
    case BlockStart(kind, id, name) => Decoded([], if kind == "tool_use" then Decoder(id, name, "") else d)
    case TextDelta(text) => Decoded([Text(text, "")], d)
    case InputDelta(json) => Decoded([], d.(input := d.input + json))
    case BlockStop =>
      if d.id != "" then Decoded([ToolUse(Some(ToolCall(d.id, d.name, d.input)))], FRESH) else Decoded([], d)
    case MessageDelta(stopReason) => Decoded([Text("", stopReason)], d)
    case MessageStop => Decoded([Done], d)
    case ErrorEvent(data) => Decoded([Error(data)], d)
    case _ => Decoded([], d)
  }

  function Decode(d: Decoder, events: seq<Event>): Decoded {
    if events == [] then Decoded([], d)
    else
      var before := Decode(d, events[..|events| - 1]);
      var last := Step(before.decoder, events[|events| - 1]);
      Decoded(before.chunks + last.chunks, last.decoder)
  }

  // ---------------------------------------------------------------- the encoder's side

  datatype Block = TextBlock(text: string) | ToolBlock(id: string, name: string, input: string)

  /** Events without effect may arrive anywhere. */
  predicate Noise(e: Event) {
    e.OtherDelta? || e.Ignored?
  }

  function TextOf(deltas: seq<Event>): string {
    if deltas == [] then ""
    else TextOf(deltas[..|deltas| - 1]) + match deltas[|deltas| - 1] case TextDelta(t) => t case _ => ""
  }

  function InputOf(deltas: seq<Event>): string {
    if deltas == [] then ""
    else InputOf(deltas[..|deltas| - 1]) + match deltas[|deltas| - 1] case InputDelta(j) => j case _ => ""
  }

  predicate Fragments(b: Block, deltas: seq<Event>) {
    match b
    case TextBlock(text) => TextOf(deltas) == text && forall e | e in deltas :: e.TextDelta? || Noise(e)
    case ToolBlock(_, _, input) => InputOf(deltas) == input && forall e | e in deltas :: e.InputDelta? || Noise(e)
  }

  predicate Starts(b: Block, e: Event) {
    match b
    case TextBlock(_) => e.BlockStart? && e.kind != "tool_use"
    case ToolBlock(id, name, _) => e == BlockStart("tool_use", id, name)
  }

  /** `events` is a start, any fragmentation of the block's contents, and a stop. */
  predicate Encodes(b: Block, events: seq<Event>) {
    && |events| >= 2
    && Starts(b, events[0])
    && Fragments(b, events[1..|events| - 1])
    && events[|events| - 1] == BlockStop
  }

  function Flatten<T>(parts: seq<seq<T>>): seq<T> {
    if parts == [] then [] else Flatten(parts[..|parts| - 1]) + parts[|parts| - 1]
  }

  // ---------------------------------------------------------------- decoding inverts encoding

  /** `chunks` carries the block: its text in pieces, or its one call. A tool block without an id is not reported. */
  predicate Renders(b: Block, chunks: seq<Chunk>) {
    match b
    case TextBlock(text) => TextIn(chunks) == text && forall c | c in chunks :: c.Text? && c.finishReason == ""
    case ToolBlock(id, name, input) => chunks == if id == "" then [] else [ToolUse(Some(ToolCall(id, name, input)))]
  }

  lemma {:induction false} DecodeResumes(d: Decoder, a: seq<Event>, b: seq<Event>)
    ensures Decode(d, a + b) ==
      Decoded(Decode(d, a).chunks + Decode(Decode(d, a).decoder, b).chunks, Decode(Decode(d, a).decoder, b).decoder)
  {
    if b == [] {
      assert a + b == a;
    } else {
      assert (a + b)[..|a + b| - 1] == a + b[..|b| - 1];
      DecodeResumes(d, a, b[..|b| - 1]);
    }
  }

  lemma {:induction false} DecodeTextDeltas(d: Decoder, deltas: seq<Event>)
    requires forall e | e in deltas :: e.TextDelta? || Noise(e)
    ensures Decode(d, deltas).decoder == d
    ensures Renders(TextBlock(TextOf(deltas)), Decode(d, deltas).chunks)
  {
    if deltas == [] {
    } else {
      var before, last := deltas[..|deltas| - 1], deltas[|deltas| - 1];
      DecodeTextDeltas(d, before);
      assert last in deltas;
      if last.TextDelta? {
        TextInConcat(Decode(d, before).chunks, [Text(last.text, "")]);
        assert [Text(last.text, "")][..0] == [];
        assert "" + last.text == last.text;
      } else {
        assert TextOf(before) + "" == TextOf(before);
        assert Decode(d, before).chunks + [] == Decode(d, before).chunks;
      }
    }
  }

  lemma {:induction false} DecodeInputDeltas(d: Decoder, deltas: seq<Event>)
    requires forall e | e in deltas :: e.InputDelta? || Noise(e)
    ensures Decode(d, deltas) == Decoded([], d.(input := d.input + InputOf(deltas)))
  {
    if deltas == [] {
      assert d.input + "" == d.input;
    } else {
      var before, last := deltas[..|deltas| - 1], deltas[|deltas| - 1];
      DecodeInputDeltas(d, before);
      assert last in deltas;
      if last.InputDelta? {
        assert d.input + InputOf(before) + last.partialJson == d.input + (InputOf(before) + last.partialJson);
      } else {
        assert InputOf(before) + "" == InputOf(before);
      }
    }
  }

  lemma DecodeOne(d: Decoder, e: Event)
    ensures Decode(d, [e]) == Step(d, e)
  {
    assert [e][..0] == [];
  }

  /** A start, some deltas and a stop, one after the other. */
  lemma DecodeFramed(d: Decoder, start: Event, deltas: seq<Event>, stop: Event)
    ensures
      var begun := Step(d, start);
      var received := Decode(begun.decoder, deltas);
      var ended := Step(received.decoder, stop);
      Decode(d, [start] + deltas + [stop]) == Decoded(begun.chunks + received.chunks + ended.chunks, ended.decoder)
  {
    DecodeOne(d, start);
    DecodeResumes(d, [start], deltas);
    DecodeResumes(d, [start] + deltas, [stop]);
    DecodeOne(Decode(Step(d, start).decoder, deltas).decoder, stop);
  }

  /** Whatever name and input are left over from before, a block decodes to itself and leaves no id behind. */
  lemma DecodeBlock(d: Decoder, b: Block, events: seq<Event>)
    requires d.id == "" && Encodes(b, events)
    ensures Renders(b, Decode(d, events).chunks) && Decode(d, events).decoder.id == ""
  {
    var deltas := events[1..|events| - 1];
    var begun := Step(d, events[0]).decoder;
    assert events == [events[0]] + deltas + [BlockStop];
    DecodeFramed(d, events[0], deltas, BlockStop);
    var received := Decode(begun, deltas);
    match b {
      case TextBlock(_) =>
        DecodeTextDeltas(begun, deltas);
        assert [] + received.chunks + [] == received.chunks;
      case ToolBlock(_, _, input) =>
        DecodeInputDeltas(begun, deltas);
        assert "" + input == input;
        assert [] + [] + [ToolUse(Some(ToolCall(b.id, b.name, input)))] == [ToolUse(Some(ToolCall(b.id, b.name, input)))];
    }
  }

  ghost predicate EncodeAll(blocks: seq<Block>, parts: seq<seq<Event>>) {
    |parts| == |blocks| && forall i | 0 <= i < |blocks| :: Encodes(blocks[i], parts[i])
  }

  ghost predicate RenderAll(blocks: seq<Block>, pieces: seq<seq<Chunk>>) {
    |pieces| == |blocks| && forall i | 0 <= i < |blocks| :: Renders(blocks[i], pieces[i])
  }

  /** A stream of blocks decodes block by block: each piece of the output carries exactly its block. */
  lemma {:induction false} DecodeInvertsEncoding(d: Decoder, blocks: seq<Block>, parts: seq<seq<Event>>)
    returns (pieces: seq<seq<Chunk>>)
    requires d.id == "" && EncodeAll(blocks, parts)
    ensures RenderAll(blocks, pieces)
    ensures Decode(d, Flatten(parts)).chunks == Flatten(pieces)
    ensures Decode(d, Flatten(parts)).decoder.id == ""
    decreases |blocks|
  {
    if blocks == [] {
      pieces := [];
    } else {
      var n := |blocks| - 1;
      var before := DecodeInvertsEncoding(d, blocks[..n], parts[..n]);
      var between := Decode(d, Flatten(parts[..n])).decoder;
      var piece := Decode(between, parts[n]).chunks;
      DecodeBlock(between, blocks[n], parts[n]);
      DecodeResumes(d, Flatten(parts[..n]), parts[n]);
      pieces := before + [piece];
      FlattenOneMore(before, piece);
      AppendPiece(blocks, before, piece);
    }
  }

  lemma FlattenOneMore<T>(parts: seq<seq<T>>, part: seq<T>)
    ensures Flatten(parts + [part]) == Flatten(parts) + part
  {
    assert (parts + [part])[..|parts|] == parts;
  }

  lemma AppendPiece(blocks: seq<Block>, before: seq<seq<Chunk>>, piece: seq<Chunk>)
    requires blocks != [] && RenderAll(blocks[..|blocks| - 1], before) && Renders(blocks[|blocks| - 1], piece)
    ensures RenderAll(blocks, before + [piece])
  {
  }

  // ---------------------------------------------------------------- text and calls of a whole message

  function BlockText(blocks: seq<Block>): string {
    if blocks == [] then ""
    else BlockText(blocks[..|blocks| - 1]) + match blocks[|blocks| - 1] case TextBlock(t) => t case _ => ""
  }

  /** The tool blocks that have an id, in order. */
  function BlockCalls(blocks: seq<Block>): seq<ToolCall> {
    if blocks == [] then []
    else
      var before := BlockCalls(blocks[..|blocks| - 1]);
      match blocks[|blocks| - 1]
      case ToolBlock(id, name, input) => if id == "" then before else before + [ToolCall(id, name, input)]
      case _ => before
  }

  lemma {:induction false} TextChunksCarryNoCalls(chunks: seq<Chunk>)
    requires forall c | c in chunks :: c.Text?
    ensures CallsIn(chunks) == []
  {
    if chunks == [] {
    } else {
      TextChunksCarryNoCalls(chunks[..|chunks| - 1]);
    }
  }

  lemma {:induction false} PiecesCarryBlocks(blocks: seq<Block>, pieces: seq<seq<Chunk>>)
    requires RenderAll(blocks, pieces)
    ensures TextIn(Flatten(pieces)) == BlockText(blocks) && CallsIn(Flatten(pieces)) == BlockCalls(blocks)
  {
    if blocks == [] {
    } else {
      var n := |blocks| - 1;
      PiecesCarryBlocks(blocks[..n], pieces[..n]);
      TextInConcat(Flatten(pieces[..n]), pieces[n]);
      CallsInConcat(Flatten(pieces[..n]), pieces[n]);
      match blocks[n] {
        case TextBlock(_) =>
          TextChunksCarryNoCalls(pieces[n]);
        case ToolBlock(id, name, input) =>
          assert pieces[n] != [] ==> pieces[n][..0] == [];
          assert TextIn(Flatten(pieces[..n])) + "" == TextIn(Flatten(pieces[..n]));
      }
    }
  }

  /** A whole message: opening and closing events around its blocks. */
  function MessageEvents(inputTokens: int, parts: seq<seq<Event>>, stopReason: string): seq<Event> {
    [MessageStart(inputTokens)] + Flatten(parts) + [MessageDelta(stopReason), MessageStop]
  }

  lemma DecodeEnding(d: Decoder, stopReason: string)
    ensures Decode(d, [MessageDelta(stopReason), MessageStop]).chunks == [Text("", stopReason), Done]
  {
    DecodeResumes(d, [MessageDelta(stopReason)], [MessageStop]);
    DecodeOne(d, MessageDelta(stopReason));
    DecodeOne(d, MessageStop);
    assert [MessageDelta(stopReason), MessageStop] == [MessageDelta(stopReason)] + [MessageStop];
  }

  lemma FramedChunks(head: seq<Chunk>, body: seq<Chunk>, stopReason: string)
    requires head == [] || head == [Usage]
    ensures var chunks := head + body + [Text("", stopReason), Done];
      TextIn(chunks) == TextIn(body) && CallsIn(chunks) == CallsIn(body)
  {
    var tail := [Text("", stopReason), Done];
    CarriesNothing(head, tail, stopReason);
    TextInConcat(head, body);
    CallsInConcat(head, body);
    TextInConcat(head + body, tail);
    CallsInConcat(head + body, tail);
    assert "" + TextIn(body) + "" == TextIn(body);
  }

  lemma DecodeMessage(parts: seq<seq<Event>>, inputTokens: int, stopReason: string)
    ensures Decode(FRESH, MessageEvents(inputTokens, parts, stopReason)).chunks
         == Step(FRESH, MessageStart(inputTokens)).chunks + Decode(FRESH, Flatten(parts)).chunks + [Text("", stopReason), Done]
  {
    var start, stop := [MessageStart(inputTokens)], [MessageDelta(stopReason), MessageStop];
    DecodeOne(FRESH, start[0]);
    DecodeResumes(FRESH, start, Flatten(parts));
    DecodeResumes(FRESH, start + Flatten(parts), stop);
    DecodeEnding(Decode(FRESH, Flatten(parts)).decoder, stopReason);
  }

  /**
    For every message and every fragmentation, the decoded text is the text of the blocks and the
    decoded calls are the tool blocks in order, each with its full input; the last chunk is the
    end marker.
  */
  lemma MessageIsDecoded(blocks: seq<Block>, parts: seq<seq<Event>>, inputTokens: int, stopReason: string)
    requires EncodeAll(blocks, parts)
    ensures var chunks := Decode(FRESH, MessageEvents(inputTokens, parts, stopReason)).chunks;
      && TextIn(chunks) == BlockText(blocks)
      && CallsIn(chunks) == BlockCalls(blocks)
      && chunks != [] && chunks[|chunks| - 1] == Done
  {
    var pieces := DecodeInvertsEncoding(FRESH, blocks, parts);
    PiecesCarryBlocks(blocks, pieces);
    DecodeMessage(parts, inputTokens, stopReason);
    FramedChunks(Step(FRESH, MessageStart(inputTokens)).chunks, Flatten(pieces), stopReason);
  }

  lemma CarriesNothing(head: seq<Chunk>, tail: seq<Chunk>, stopReason: string)
    requires head == [] || head == [Usage]
    requires tail == [Text("", stopReason), Done]
    ensures TextIn(head) == "" && CallsIn(head) == []
    ensures TextIn(tail) == "" && CallsIn(tail) == []
  {
    assert head != [] ==> head[..0] == [];
    assert tail[..1] == [Text("", stopReason)] && tail[..1][..0] == [];
  }

  /** All tool blocks as calls, in order, with or without an id. */
  function AllCalls(blocks: seq<Block>): seq<ToolCall> {
    if blocks == [] then []
    else
      var before := AllCalls(blocks[..|blocks| - 1]);
      match blocks[|blocks| - 1]
      case ToolBlock(id, name, input) => before + [ToolCall(id, name, input)]
      case TextBlock(_) => before
  }

  lemma {:induction false} BlocksWithoutIdAreSkipped(blocks: seq<Block>)
    ensures |BlockCalls(blocks)| <= |AllCalls(blocks)|
    ensures BlockCalls(blocks) == AllCalls(blocks) <==> forall b | b in blocks :: b.ToolBlock? ==> b.id != ""
  {
    if blocks == [] {
    } else {
      var before, last := blocks[..|blocks| - 1], blocks[|blocks| - 1];
      BlocksWithoutIdAreSkipped(before);
      assert forall b :: b in blocks <==> b in before || b == last;
      match last {
        case TextBlock(_) =>
        case ToolBlock(id, name, input) =>
          var call := ToolCall(id, name, input);
          assert (AllCalls(before) + [call])[..|AllCalls(before)|] == AllCalls(before);
          assert (BlockCalls(before) + [call])[..|BlockCalls(before)|] == BlockCalls(before);
      }
    }
  }

  /** The decoder reports all tool blocks of a message if and only if every one has an id; it never reports more. */
  lemma NoToolBlockIsLostIff(blocks: seq<Block>, parts: seq<seq<Event>>, inputTokens: int, stopReason: string)
    requires EncodeAll(blocks, parts)
    ensures var calls := CallsIn(Decode(FRESH, MessageEvents(inputTokens, parts, stopReason)).chunks);
      && (calls == AllCalls(blocks) <==> forall b | b in blocks :: b.ToolBlock? ==> b.id != "")
      && |calls| <= |AllCalls(blocks)|
  {
    MessageIsDecoded(blocks, parts, inputTokens, stopReason);
    BlocksWithoutIdAreSkipped(blocks);
  }

  // ---------------------------------------------------------------- any list of events, well formed or not

  function ErrorPart(c: Chunk): seq<string> {
    if c.Error? then [c.content] else []
  }

  function ErrorsIn(chunks: seq<Chunk>): seq<string> {
    if chunks == [] then [] else ErrorsIn(chunks[..|chunks| - 1]) + ErrorPart(chunks[|chunks| - 1])
  }

  function ErrorOf(e: Event): seq<string> {
    if e.ErrorEvent? then [e.data] else []
  }

  /** The data of the error events, in order. */
  function ErrorData(events: seq<Event>): seq<string> {
    if events == [] then [] else ErrorData(events[..|events| - 1]) + ErrorOf(events[|events| - 1])
  }

  function FinishPart(c: Chunk): seq<string> {
    if c.Text? && c.finishReason != "" then [c.finishReason] else []
  }

  function FinishesIn(chunks: seq<Chunk>): seq<string> {
    if chunks == [] then [] else FinishesIn(chunks[..|chunks| - 1]) + FinishPart(chunks[|chunks| - 1])
  }

  function StopReasonOf(e: Event): seq<string> {
    if e.MessageDelta? && e.stopReason != "" then [e.stopReason] else []
  }

  /** The stop reasons that are given, in order. */
  function StopReasons(events: seq<Event>): seq<string> {
    if events == [] then [] else StopReasons(events[..|events| - 1]) + StopReasonOf(events[|events| - 1])
  }

  function Count(chunks: seq<Chunk>, c: Chunk): nat {
    if chunks == [] then 0 else Count(chunks[..|chunks| - 1], c) + if chunks[|chunks| - 1] == c then 1 else 0
  }

  /** How often the stream reports tokens. */
  function Usages(events: seq<Event>): nat {
    if events == [] then 0
    else
      var e := events[|events| - 1];
      Usages(events[..|events| - 1]) + if e.MessageStart? && e.inputTokens > 0 then 1 else 0
  }

  /** How many messages of the stream came to their end. */
  function Stops(events: seq<Event>): nat {
    if events == [] then 0 else Stops(events[..|events| - 1]) + if events[|events| - 1].MessageStop? then 1 else 0
  }

  lemma TextOneMore(d: Decoder, chunks: seq<Chunk>, e: Event)
    ensures TextIn(chunks + Step(d, e).chunks) == TextIn(chunks) + match e case TextDelta(t) => t case _ => ""
  {
    var more := Step(d, e).chunks;
    if more == [] {
      assert chunks + more == chunks && TextIn(chunks) + "" == TextIn(chunks);
    } else {
      assert (chunks + more)[..|chunks|] == chunks && |more| == 1;
    }
  }

  /** Whatever the provider sends, in whatever order, all its text comes out in order and unchanged. */
  lemma {:induction false} TextIsForwarded(d: Decoder, events: seq<Event>)
    ensures TextIn(Decode(d, events).chunks) == TextOf(events)
  {
    if events == [] {
    } else {
      var init := events[..|events| - 1];
      TextIsForwarded(d, init);
      TextOneMore(Decode(d, init).decoder, Decode(d, init).chunks, events[|events| - 1]);
    }
  }

  lemma ErrorsOneMore(d: Decoder, chunks: seq<Chunk>, e: Event)
    ensures ErrorsIn(chunks + Step(d, e).chunks) == ErrorsIn(chunks) + ErrorOf(e)
  {
    var more := Step(d, e).chunks;
    if more == [] {
      assert chunks + more == chunks && ErrorsIn(chunks) + [] == ErrorsIn(chunks);
    } else {
      assert (chunks + more)[..|chunks|] == chunks && |more| == 1;
    }
  }

  /** So do all its errors. */
  lemma {:induction false} ErrorsAreForwarded(d: Decoder, events: seq<Event>)
    ensures ErrorsIn(Decode(d, events).chunks) == ErrorData(events)
  {
    if events == [] {
    } else {
      var init := events[..|events| - 1];
      ErrorsAreForwarded(d, init);
      ErrorsOneMore(Decode(d, init).decoder, Decode(d, init).chunks, events[|events| - 1]);
    }
  }

  lemma FinishesOneMore(d: Decoder, chunks: seq<Chunk>, e: Event)
    ensures FinishesIn(chunks + Step(d, e).chunks) == FinishesIn(chunks) + StopReasonOf(e)
  {
    var more := Step(d, e).chunks;
    if more == [] {
      assert chunks + more == chunks && FinishesIn(chunks) + [] == FinishesIn(chunks);
    } else {
      assert (chunks + more)[..|chunks|] == chunks && |more| == 1;
    }
  }

  /** And all the stop reasons it gives. */
  lemma {:induction false} StopReasonsAreForwarded(d: Decoder, events: seq<Event>)
    ensures FinishesIn(Decode(d, events).chunks) == StopReasons(events)
  {
    if events == [] {
    } else {
      var init := events[..|events| - 1];
      StopReasonsAreForwarded(d, init);
      FinishesOneMore(Decode(d, init).decoder, Decode(d, init).chunks, events[|events| - 1]);
    }
  }

  lemma DonesOneMore(d: Decoder, chunks: seq<Chunk>, e: Event)
    ensures Count(chunks + Step(d, e).chunks, Done) == Count(chunks, Done) + if e.MessageStop? then 1 else 0
  {
    var more := Step(d, e).chunks;
    if more == [] {
      assert chunks + more == chunks && Count(chunks, Done) + 0 == Count(chunks, Done);
    } else {
      assert (chunks + more)[..|chunks|] == chunks && |more| == 1;
    }
  }

  /** Each message that stops gives one end. */
  lemma {:induction false} StopsAreForwarded(d: Decoder, events: seq<Event>)
    ensures Count(Decode(d, events).chunks, Done) == Stops(events)
  {
    if events == [] {
    } else {
      var init := events[..|events| - 1];
      StopsAreForwarded(d, init);
      DonesOneMore(Decode(d, init).decoder, Decode(d, init).chunks, events[|events| - 1]);
    }
  }

  lemma UsagesOneMore(d: Decoder, chunks: seq<Chunk>, e: Event)
    ensures Count(chunks + Step(d, e).chunks, Usage) == Count(chunks, Usage) + if e.MessageStart? && e.inputTokens > 0 then 1 else 0
  {
    var more := Step(d, e).chunks;
    if more == [] {
      assert chunks + more == chunks && Count(chunks, Usage) + 0 == Count(chunks, Usage);
    } else {
      assert (chunks + more)[..|chunks|] == chunks && |more| == 1;
    }
  }

  /** Each count of tokens gives one usage. */
  lemma {:induction false} UsagesAreForwarded(d: Decoder, events: seq<Event>)
    ensures Count(Decode(d, events).chunks, Usage) == Usages(events)
  {
    if events == [] {
    } else {
      var init := events[..|events| - 1];
      UsagesAreForwarded(d, init);
      UsagesOneMore(Decode(d, init).decoder, Decode(d, init).chunks, events[|events| - 1]);
    }
  }

  // ---------------------------------------------------------------- the decoder itself

  /** The variables that `Stream` passes to `parseAnthropicEvent` by pointer. */
  class EventDecoder {
    var toolID: string
    var toolName: string
    var toolInput: string

    ghost function View(): Decoder
      reads this
    {
      Decoder(toolID, toolName, toolInput)
    }

    constructor ()
      ensures View() == FRESH
    {
      toolID, toolName, toolInput := "", "", "";
    }

    method ParseEvent(event: Event) returns (chunk: Option<Chunk>)
      modifies this
      ensures
        var step := Step(old(View()), event);
        View() == step.decoder && step.chunks == (if chunk.Some? then [chunk.value] else [])
      ensures event.TextDelta? ==> chunk == Some(Text(event.text, ""))
      ensures event.ErrorEvent? ==> chunk == Some(Error(event.data))
    {
      chunk := None;
      match event {
        case MessageStart(tokens) =>
          if tokens > 0 {
            chunk := Some(Usage);
          }
        case BlockStart(kind, id, name) =>
          if kind == "tool_use" {
            toolID, toolName, toolInput := id, name, "";
          }
        case TextDelta(text) =>
          chunk := Some(Text(text, ""));
        case InputDelta(json) =>
          toolInput := toolInput + json;
        case BlockStop =>
          if toolID != "" {
            chunk := Some(ToolUse(Some(ToolCall(toolID, toolName, toolInput))));
            toolID, toolName, toolInput := "", "", "";
          }
        case MessageDelta(stopReason) =>
          chunk := Some(Text("", stopReason));
        case MessageStop =>
          chunk := Some(Done);
        case ErrorEvent(data) =>
          chunk := Some(Error(data));
        case _ =>
      }
    }

    /** The goroutine that turns the event stream into chunks. */
    method Forward(events: seq<Event>) returns (chunks: seq<Chunk>)
      modifies this
      ensures Decoded(chunks, View()) == Decode(old(View()), events)
    {
      chunks := [];
      for i := 0 to |events|
        invariant Decoded(chunks, View()) == Decode(old(View()), events[..i])
      {
        assert events[..i + 1][..i] == events[..i];
        var chunk := ParseEvent(events[i]);
        if chunk.Some? {
          chunks := chunks + [chunk.value];
        }
      }
      assert events[..|events|] == events;
    }
  }
}
