/**
  How the providers put a message list on the wire: OpenAI (and Volcengine, which renders alike) in
  `internal/burrow/llm/providers/openai.go`, and Anthropic in
  `internal/burrow/llm/providers/anthropic.go`.
*/
module Render {
  import opened Common
  import opened Llm
  import Pipeline

  // ---------------------------------------------------------------- OpenAI

  datatype Wire =
    | CallsWire(text: Option<string>, calls: seq<ToolCall>)   // an assistant message with tool_calls
    | ToolWire(id: string, content: string)                      // one tool result
    | PlainWire(role: string, content: string)

  function ToolWires(results: seq<ToolResult>): seq<Wire> {
    seq(|results|, i requires 0 <= i < |results| => ToolWire(results[i].toolUseID, results[i].content))
  }

  /** One message becomes one wire message, except that a tool message becomes one per result. */
  function WiresOf(m: Message): seq<Wire> {
    if m.role == "assistant" && m.toolCalls != [] then
      [CallsWire(if m.content != "" then Some(m.content) else None, m.toolCalls)]
    else if m.role == "tool" && m.toolResults != [] then ToolWires(m.toolResults)
    else [PlainWire(m.role, m.content)]
  }

  function OpenAI(messages: seq<Message>): seq<Wire> {
    if messages == [] then []
    else OpenAI(messages[..|messages| - 1]) + WiresOf(messages[|messages| - 1])
  }

  /** The rendering loop. */
  method RenderOpenAI(messages: seq<Message>) returns (wires: seq<Wire>)
    ensures wires == OpenAI(messages)
  {
    wires := [];
    for i := 0 to |messages|
      invariant wires == OpenAI(messages[..i])
    {
      assert messages[..i + 1][..i] == messages[..i];
      var m := messages[i];
      if m.role == "assistant" && |m.toolCalls| > 0 {
        var content := if m.content != "" then Some(m.content) else None;
        wires := wires + [CallsWire(content, m.toolCalls)];
        continue;
      }
      if m.role == "tool" && |m.toolResults| > 0 {
        ghost var before := wires;
        for j := 0 to |m.toolResults|
          invariant wires == before + ToolWires(m.toolResults)[..j]
        {
          wires := wires + [ToolWire(m.toolResults[j].toolUseID, m.toolResults[j].content)];
        }
        assert ToolWires(m.toolResults)[..|m.toolResults|] == ToolWires(m.toolResults);
        continue;
      }
      wires := wires + [PlainWire(m.role, m.content)];
    }
    assert messages[..|messages|] == messages;
  }

  // ---------------------------------------------------------------- reading the wire back

  function AddResult(messages: seq<Message>, r: ToolResult): seq<Message>
    requires messages != []
  {
    var n := |messages| - 1;
    messages[n := messages[n].(toolResults := messages[n].toolResults + [r])]
  }

  /** Consecutive tool wires form one tool message. */
  function Regroup(wires: seq<Wire>): (messages: seq<Message>)
    ensures wires != [] ==> messages != []
  {
    if wires == [] then []
    else
      var n := |wires| - 1;
      var before := Regroup(wires[..n]);
      match wires[n]
      case CallsWire(content, calls) =>
        before + [Message("assistant", if content.Some? then content.value else "", calls, [])]
      case PlainWire(role, content) => before + [PlainMessage(role, content)]
      case ToolWire(id, content) =>
        if n > 0 && wires[n - 1].ToolWire? then AddResult(before, ToolResult(id, content))
        else before + [Message("tool", "", [], [ToolResult(id, content)])]
  }

  lemma {:induction false} RegroupTools(wires: seq<Wire>, results: seq<ToolResult>)
    requires wires != [] ==> !wires[|wires| - 1].ToolWire?
    requires results != []
    ensures Regroup(wires + ToolWires(results)) == Regroup(wires) + [Message("tool", "", [], results)]
  {
    var n := |results| - 1;
    var all := wires + ToolWires(results);
    assert results == results[..n] + [results[n]];
    assert all[..|all| - 1] == wires + ToolWires(results[..n]);
    if n > 0 {
      RegroupTools(wires, results[..n]);
      assert all[|all| - 2] == ToolWires(results)[n - 1];
    } else {
      assert wires + ToolWires(results[..n]) == wires;
      assert results == [results[0]];
    }
  }

  lemma RegroupSnoc(wires: seq<Wire>, w: Wire)
    requires !w.ToolWire?
    ensures Regroup(wires + [w]) == Regroup(wires) +
      [if w.CallsWire? then Message("assistant", if w.text.Some? then w.text.value else "", w.calls, [])
       else PlainMessage(w.role, w.content)]
  {
    assert (wires + [w])[..|wires|] == wires;
  }

  /** The part of matching that prefixes keep. */
  predicate Orderly(ms: seq<Message>) {
    forall i | 0 <= i < |ms| ::
      Bare(ms[i]) || Asks(ms[i]) || (i > 0 && Asks(ms[i - 1]) && Answers(ms[i - 1], ms[i]))
  }

  lemma MatchedIsOrderly(ms: seq<Message>)
    requires Matched(ms)
    ensures Orderly(ms)
  {
    forall i | 0 <= i < |ms| ensures Bare(ms[i]) || Asks(ms[i]) || (i > 0 && Asks(ms[i - 1]) && Answers(ms[i - 1], ms[i])) {
      assert MatchedAt(ms, i);
    }
  }

  lemma AnswerHasResults(q: Message, a: Message)
    requires Asks(q) && Answers(q, a)
    ensures a.toolResults != [] && a == Message("tool", "", [], a.toolResults)
  {
    assert |ResultIds(a.toolResults)| == |CallIds(q.toolCalls)|;
  }

  lemma {:induction false} LastWire(ms: seq<Message>)
    requires Orderly(ms) && ms != []
    ensures OpenAI(ms) != []
    ensures OpenAI(ms)[|OpenAI(ms)| - 1].ToolWire? <==> ms[|ms| - 1].toolResults != []
  {
    var m := ms[|ms| - 1];
    if !Bare(m) && !Asks(m) {
      AnswerHasResults(ms[|ms| - 2], m);
    }
  }

  lemma RegroupOneMore(before: seq<Message>, m: Message)
    requires Bare(m) || Asks(m)
    ensures Regroup(OpenAI(before) + WiresOf(m)) == Regroup(OpenAI(before)) + [m]
  {
    RegroupSnoc(OpenAI(before), WiresOf(m)[0]);
    assert WiresOf(m) == [WiresOf(m)[0]];
  }

  lemma RegroupAnswer(before: seq<Message>, q: Message, m: Message)
    requires Orderly(before) && before != [] && before[|before| - 1] == q
    requires Asks(q) && Answers(q, m)
    ensures Regroup(OpenAI(before) + WiresOf(m)) == Regroup(OpenAI(before)) + [m]
  {
    AnswerHasResults(q, m);
    LastWire(before);
    RegroupTools(OpenAI(before), m.toolResults);
  }

  lemma OrderlyPrefix(ms: seq<Message>)
    requires Orderly(ms) && ms != []
    ensures Orderly(ms[..|ms| - 1])
  {
    var before := ms[..|ms| - 1];
    forall i | 0 <= i < |before|
      ensures Bare(before[i]) || Asks(before[i]) || (i > 0 && Asks(before[i - 1]) && Answers(before[i - 1], before[i]))
    {
      assert before[i] == ms[i];
    }
  }

  lemma RegroupLast(before: seq<Message>, m: Message)
    requires Orderly(before) && Orderly(before + [m])
    ensures Regroup(OpenAI(before) + WiresOf(m)) == Regroup(OpenAI(before)) + [m]
  {
    var ms := before + [m];
    assert ms[|before|] == m;
    if Bare(m) || Asks(m) {
      RegroupOneMore(before, m);
    } else {
      RegroupAnswer(before, ms[|before| - 1], m);
    }
  }

  lemma {:induction false} RegroupInvertsOrderly(ms: seq<Message>)
    requires Orderly(ms)
    ensures Regroup(OpenAI(ms)) == ms
  {
    if ms == [] {
    } else {
      var before, m := ms[..|ms| - 1], ms[|ms| - 1];
      OrderlyPrefix(ms);
      RegroupInvertsOrderly(before);
      assert ms == before + [m];
      RegroupLast(before, m);
    }
  }

  /** The OpenAI rendering loses nothing of a matched message list, stray tool messages included. */
  lemma OpenAIRoundTrip(ms: seq<Message>)
    requires Matched(ms)
    ensures Regroup(OpenAI(ms)) == ms
  {
    MatchedIsOrderly(ms);
    RegroupInvertsOrderly(ms);
  }

  // ---------------------------------------------------------------- pairing on the OpenAI wire

  /**
    Each wire message with n calls is followed by exactly n tool wires, with the calls' ids in order,
    and no message with the role "tool" appears otherwise.
  */
  predicate WirePaired(wires: seq<Wire>) {
    wires == [] ||
    match wires[0]
    case PlainWire(role, _) => role != "tool" && WirePaired(wires[1..])
    case ToolWire(_, _) => false
    case CallsWire(_, calls) =>
      && |wires| > |calls|
      && (forall k | 0 <= k < |calls| :: wires[1 + k].ToolWire? && wires[1 + k].id == calls[k].id)
      && WirePaired(wires[1 + |calls|..])
  }

  lemma {:induction false} OpenAIConcat(a: seq<Message>, b: seq<Message>)
    ensures OpenAI(a + b) == OpenAI(a) + OpenAI(b)
  {
    if b == [] {
      assert a + b == a && OpenAI(a) + [] == OpenAI(a);
    } else {
      var init, wires := b[..|b| - 1], WiresOf(b[|b| - 1]);
      calc {
        OpenAI(a + b);
        { assert (a + b)[..|a + b| - 1] == a + init; }
        OpenAI(a + init) + wires;
        { OpenAIConcat(a, init); }
        OpenAI(a) + OpenAI(init) + wires;
        OpenAI(a) + (OpenAI(init) + wires);
        OpenAI(a) + OpenAI(b);
      }
    }
  }

  lemma OpenAIOne(m: Message)
    ensures OpenAI([m]) == WiresOf(m)
  {
    assert [m][..0] == [];
  }

  /** A matched list starts with a message without tool blocks or with a question and its answer, and the rest is matched. */
  lemma MatchedFront(ms: seq<Message>)
    requires Matched(ms) && ms != []
    ensures Bare(ms[0]) || (|ms| >= 2 && Asks(ms[0]) && Answers(ms[0], ms[1]))
    ensures var rest := if Bare(ms[0]) then ms[1..] else ms[2..]; Matched(rest) && (NoStray(ms) <==> !Stray(ms[0]) && NoStray(rest))
  {
    assert MatchedAt(ms, 0);
    var k := if Bare(ms[0]) then 1 else 2;
    var rest := ms[k..];
    forall i | 0 <= i < |rest| ensures MatchedAt(rest, i) {
      assert MatchedAt(ms, i + k);
      if k == 2 && i == 0 {
        AnswerHasResults(ms[0], ms[1]);
      }
    }
  }

  lemma BareOnWire(m: Message, rest: seq<Message>)
    requires Bare(m)
    ensures WirePaired(OpenAI([m] + rest)) <==> !Stray(m) && WirePaired(OpenAI(rest))
  {
    OpenAIConcat([m], rest);
    OpenAIOne(m);
    assert ([PlainWire(m.role, m.content)] + OpenAI(rest))[1..] == OpenAI(rest);
  }

  /** What follows the first message, or the first question and its answer, decides the rest on both sides. */
  lemma WireFront(ms: seq<Message>) returns (rest: seq<Message>)
    requires Matched(ms) && ms != []
    ensures |rest| < |ms| && Matched(rest)
    ensures NoStray(ms) <==> !Stray(ms[0]) && NoStray(rest)
    ensures WirePaired(OpenAI(ms)) <==> !Stray(ms[0]) && WirePaired(OpenAI(rest))
  {
    MatchedFront(ms);
    if Bare(ms[0]) {
      rest := ms[1..];
      BareFront(ms);
    } else {
      rest := ms[2..];
      QuestionFront(ms);
    }
  }

  lemma BareFront(ms: seq<Message>)
    requires ms != [] && Bare(ms[0])
    ensures WirePaired(OpenAI(ms)) <==> !Stray(ms[0]) && WirePaired(OpenAI(ms[1..]))
  {
    BareOnWire(ms[0], ms[1..]);
    assert ms == [ms[0]] + ms[1..];
  }

  lemma QuestionFront(ms: seq<Message>)
    requires |ms| >= 2 && Asks(ms[0]) && Answers(ms[0], ms[1])
    ensures WirePaired(OpenAI(ms)) <==> WirePaired(OpenAI(ms[2..]))
  {
    FirstTwo(ms);
    QuestionAndAnswerOnWire(ms[0], ms[1], ms[2..]);
  }

  lemma FirstTwo(ms: seq<Message>)
    requires |ms| >= 2
    ensures ms == [ms[0]] + ([ms[1]] + ms[2..])
  {
  }

  /** A matched list is paired on the wire if and only if it holds no stray tool message. */
  lemma {:induction false} OpenAIWireIsPairedIff(ms: seq<Message>)
    requires Matched(ms)
    ensures WirePaired(OpenAI(ms)) <==> NoStray(ms)
    decreases |ms|
  {
    if ms == [] {
    } else {
      var rest := WireFront(ms);
      OpenAIWireIsPairedIff(rest);
    }
  }

  lemma CallsInFront(w: Wire, tools: seq<Wire>, rest: seq<Wire>)
    requires w.CallsWire? && |tools| == |w.calls|
    requires forall k | 0 <= k < |tools| :: tools[k].ToolWire? && tools[k].id == w.calls[k].id
    ensures WirePaired([w] + tools + rest) <==> WirePaired(rest)
  {
    var wires := [w] + tools + rest;
    assert wires[1 + |tools|..] == rest;
    forall k | 0 <= k < |w.calls| ensures wires[1 + k].ToolWire? && wires[1 + k].id == w.calls[k].id {
      assert wires[1 + k] == tools[k];
    }
  }

  lemma OpenAITwo(q: Message, a: Message, rest: seq<Message>)
    ensures OpenAI([q] + ([a] + rest)) == WiresOf(q) + WiresOf(a) + OpenAI(rest)
  {
    OpenAIConcat([q], [a] + rest);
    OpenAIConcat([a], rest);
    OpenAIOne(q);
    OpenAIOne(a);
  }

  lemma QuestionAndAnswerOnWire(q: Message, a: Message, rest: seq<Message>)
    requires Asks(q) && Answers(q, a)
    ensures WirePaired(OpenAI([q] + ([a] + rest))) <==> WirePaired(OpenAI(rest))
  {
    AnswerHasResults(q, a);
    OpenAITwo(q, a, rest);
    assert |ResultIds(a.toolResults)| == |CallIds(q.toolCalls)|;
    forall k | 0 <= k < |q.toolCalls| ensures ToolWires(a.toolResults)[k].id == q.toolCalls[k].id {
      assert ResultIds(a.toolResults)[k] == CallIds(q.toolCalls)[k];
    }
    CallsInFront(WiresOf(q)[0], ToolWires(a.toolResults), OpenAI(rest));
  }

  // ---------------------------------------------------------------- Anthropic

  datatype Block =
    | TextBlock(text: string)
    | ToolUseBlock(id: string, name: string, input: string)
    | ToolResultBlock(id: string, content: string)

  datatype Body = Blocks(blocks: seq<Block>) | Str(text: string)

  datatype AnthropicMessage = AnthropicMessage(role: string, body: Body)

  /** The system prompt and the messages of a request body. */
  datatype Request = Request(system: string, messages: seq<AnthropicMessage>)

  /** `parse` is what JSON decoding and encoding make of a tool input; unreadable input becomes {}. */
  function UseBlocks(calls: seq<ToolCall>, parse: string -> string): seq<Block> {
    seq(|calls|, i requires 0 <= i < |calls| => ToolUseBlock(calls[i].id, calls[i].name, parse(calls[i].input)))
  }

  function ResultBlocks(results: seq<ToolResult>): seq<Block> {
    seq(|results|, i requires 0 <= i < |results| => ToolResultBlock(results[i].toolUseID, results[i].content))
  }

  function Converted(m: Message, parse: string -> string): AnthropicMessage {
    if m.role == "assistant" && m.toolCalls != [] then
      AnthropicMessage("assistant",
        Blocks((if m.content != "" then [TextBlock(m.content)] else []) + UseBlocks(m.toolCalls, parse)))
    else if m.role == "tool" && m.toolResults != [] then AnthropicMessage("user", Blocks(ResultBlocks(m.toolResults)))
    else AnthropicMessage(m.role, Str(m.content))
  }

  function Anthropic(messages: seq<Message>, parse: string -> string): Request {
    if messages == [] then Request("", [])
    else
      var before, m := Anthropic(messages[..|messages| - 1], parse), messages[|messages| - 1];
      if m.role == "system" then before.(system := m.content)
      else before.(messages := before.messages + [Converted(m, parse)])
  }

  method RenderAnthropic(messages: seq<Message>, parse: string -> string) returns (system: string, rendered: seq<AnthropicMessage>)
    ensures Request(system, rendered) == Anthropic(messages, parse)
  {
    system, rendered := "", [];
    for i := 0 to |messages|
      invariant Request(system, rendered) == Anthropic(messages[..i], parse)
    {
      assert messages[..i + 1][..i] == messages[..i];
      var m := messages[i];
      if m.role == "system" {
        system := m.content;
        continue;
      }
      if m.role == "assistant" && |m.toolCalls| > 0 {
        var blocks := ToolUseContent(m, parse);
        rendered := rendered + [AnthropicMessage("assistant", Blocks(blocks))];
        continue;
      }
      if m.role == "tool" && |m.toolResults| > 0 {
        var blocks: seq<Block> := [];
        for j := 0 to |m.toolResults|
          invariant blocks == ResultBlocks(m.toolResults)[..j]
        {
          blocks := blocks + [ToolResultBlock(m.toolResults[j].toolUseID, m.toolResults[j].content)];
        }
        assert ResultBlocks(m.toolResults)[..|m.toolResults|] == ResultBlocks(m.toolResults);
        rendered := rendered + [AnthropicMessage("user", Blocks(blocks))];
        continue;
      }
      rendered := rendered + [AnthropicMessage(m.role, Str(m.content))];
    }
    assert messages[..|messages|] == messages;
  }

  method ToolUseContent(m: Message, parse: string -> string) returns (blocks: seq<Block>)
    ensures blocks == (if m.content != "" then [TextBlock(m.content)] else []) + UseBlocks(m.toolCalls, parse)
  {
    blocks := [];
    if m.content != "" {
      blocks := [TextBlock(m.content)];
    }
    ghost var text := blocks;
    for j := 0 to |m.toolCalls|
      invariant blocks == text + UseBlocks(m.toolCalls, parse)[..j]
    {
      var call := m.toolCalls[j];
      blocks := blocks + [ToolUseBlock(call.id, call.name, parse(call.input))];
    }
    assert UseBlocks(m.toolCalls, parse)[..|m.toolCalls|] == UseBlocks(m.toolCalls, parse);
  }

  function UseIds(blocks: seq<Block>): seq<string> {
    if blocks == [] then []
    else UseIds(blocks[..|blocks| - 1]) + (if blocks[|blocks| - 1].ToolUseBlock? then [blocks[|blocks| - 1].id] else [])
  }

  function ResultBlockIds(blocks: seq<Block>): seq<string> {
    if blocks == [] then []
    else ResultBlockIds(blocks[..|blocks| - 1]) + (if blocks[|blocks| - 1].ToolResultBlock? then [blocks[|blocks| - 1].id] else [])
  }

  function Uses(m: AnthropicMessage): seq<string> {
    if m.body.Str? then [] else UseIds(m.body.blocks)
  }

  function ResultsIn(m: AnthropicMessage): seq<string> {
    if m.body.Str? then [] else ResultBlockIds(m.body.blocks)
  }

  /** Tool results appear exactly in the user message right after the tool uses, with the same ids in order. */
  predicate UsesAnswered(ms: seq<AnthropicMessage>) {
    ms == [] ||
    if Uses(ms[0]) == [] then ResultsIn(ms[0]) == [] && UsesAnswered(ms[1..])
    else
      && ResultsIn(ms[0]) == []
      && |ms| >= 2
      && ms[1].role == "user" && Uses(ms[1]) == [] && ResultsIn(ms[1]) == Uses(ms[0])
      && UsesAnswered(ms[2..])
  }

  lemma {:induction false} AnthropicConcat(a: seq<Message>, b: seq<Message>, parse: string -> string)
    ensures Anthropic(a + b, parse).messages == Anthropic(a, parse).messages + Anthropic(b, parse).messages
  {
    if b == [] {
      assert a + b == a;
    } else {
      assert (a + b)[..|a + b| - 1] == a + b[..|b| - 1];
      AnthropicConcat(a, b[..|b| - 1], parse);
    }
  }

  lemma {:induction false} UseBlockIds(prefix: seq<Block>, calls: seq<ToolCall>, parse: string -> string)
    requires prefix == [] || (|prefix| == 1 && prefix[0].TextBlock?)
    ensures UseIds(prefix + UseBlocks(calls, parse)) == CallIds(calls)
    ensures ResultBlockIds(prefix + UseBlocks(calls, parse)) == []
  {
    var blocks := prefix + UseBlocks(calls, parse);
    if calls == [] {
      assert blocks == prefix;
      if prefix != [] {
        assert prefix[..0] == [];
      }
    } else {
      var n := |calls| - 1;
      UseBlockIds(prefix, calls[..n], parse);
      assert blocks[..|blocks| - 1] == prefix + UseBlocks(calls[..n], parse);
      assert CallIds(calls) == CallIds(calls[..n]) + [calls[n].id];
    }
  }

  lemma {:induction false} ResultIdsOfBlocks(results: seq<ToolResult>)
    ensures UseIds(ResultBlocks(results)) == [] && ResultBlockIds(ResultBlocks(results)) == ResultIds(results)
  {
    if results == [] {
    } else {
      var n := |results| - 1;
      ResultIdsOfBlocks(results[..n]);
      assert ResultBlocks(results)[..n] == ResultBlocks(results[..n]);
      assert ResultIds(results) == ResultIds(results[..n]) + [results[n].toolUseID];
    }
  }

  lemma ConvertedIds(m: Message, parse: string -> string)
    ensures Bare(m) ==> Uses(Converted(m, parse)) == [] && ResultsIn(Converted(m, parse)) == []
    ensures Asks(m) ==> Uses(Converted(m, parse)) == CallIds(m.toolCalls) && ResultsIn(Converted(m, parse)) == []
    ensures m.role == "tool" && m.toolResults != [] && m.toolCalls == [] ==>
      && Uses(Converted(m, parse)) == []
      && ResultsIn(Converted(m, parse)) == ResultIds(m.toolResults)
      && Converted(m, parse).role == "user"
  {
    UseBlockIds(if m.content != "" then [TextBlock(m.content)] else [], m.toolCalls, parse);
    ResultIdsOfBlocks(m.toolResults);
  }

  lemma AnthropicOne(m: Message, parse: string -> string)
    ensures Anthropic([m], parse).messages == if m.role == "system" then [] else [Converted(m, parse)]
  {
    assert [m][..0] == [];
  }

  lemma BareInFront(m: Message, rest: seq<Message>, parse: string -> string)
    requires Bare(m) && UsesAnswered(Anthropic(rest, parse).messages)
    ensures UsesAnswered(Anthropic([m] + rest, parse).messages)
  {
    AnthropicConcat([m], rest, parse);
    AnthropicOne(m, parse);
    ConvertedIds(m, parse);
    var after := Anthropic(rest, parse).messages;
    assert ([Converted(m, parse)] + after)[1..] == after;
    assert [] + after == after;
  }

  lemma AnsweredPairInFront(x: AnthropicMessage, y: AnthropicMessage, after: seq<AnthropicMessage>)
    requires Uses(x) != [] && ResultsIn(x) == []
    requires y.role == "user" && Uses(y) == [] && ResultsIn(y) == Uses(x)
    requires UsesAnswered(after)
    ensures UsesAnswered([x, y] + after)
  {
    assert ([x, y] + after)[2..] == after;
  }

  lemma AnthropicTwo(q: Message, a: Message, parse: string -> string)
    requires q.role != "system" && a.role != "system"
    ensures Anthropic([q, a], parse).messages == [Converted(q, parse), Converted(a, parse)]
  {
    AnthropicConcat([q], [a], parse);
    assert [q] + [a] == [q, a];
    AnthropicOne(q, parse);
    AnthropicOne(a, parse);
  }

  lemma QuestionInFront(q: Message, a: Message, rest: seq<Message>, parse: string -> string)
    requires Asks(q) && Answers(q, a) && UsesAnswered(Anthropic(rest, parse).messages)
    ensures UsesAnswered(Anthropic([q, a] + rest, parse).messages)
  {
    AnswerHasResults(q, a);
    AnthropicConcat([q, a], rest, parse);
    AnthropicTwo(q, a, parse);
    ConvertedIds(q, parse);
    ConvertedIds(a, parse);
    assert |CallIds(q.toolCalls)| > 0;
    AnsweredPairInFront(Converted(q, parse), Converted(a, parse), Anthropic(rest, parse).messages);
  }

  /** Anthropic's demand: every tool_use is answered in the very next message, id by id. */
  lemma {:induction false} AnthropicUsesAreAnswered(ms: seq<Message>, parse: string -> string)
    requires Matched(ms)
    ensures UsesAnswered(Anthropic(ms, parse).messages)
    decreases |ms|
  {
    if ms == [] {
    } else {
      MatchedFront(ms);
      if Bare(ms[0]) {
        AnthropicUsesAreAnswered(ms[1..], parse);
        BareInFront(ms[0], ms[1..], parse);
        assert ms == [ms[0]] + ms[1..];
      } else {
        AnthropicUsesAreAnswered(ms[2..], parse);
        QuestionInFront(ms[0], ms[1], ms[2..], parse);
        assert ms == [ms[0], ms[1]] + ms[2..];
      }
    }
  }

  // ---------------------------------------------------------------- reading Anthropic's messages back

  function TextIn(blocks: seq<Block>): string {
    if blocks != [] && blocks[0].TextBlock? then blocks[0].text else ""
  }

  function CallsIn(blocks: seq<Block>): seq<ToolCall> {
    if blocks == [] then []
    else
      var before, b := CallsIn(blocks[..|blocks| - 1]), blocks[|blocks| - 1];
      if b.ToolUseBlock? then before + [ToolCall(b.id, b.name, b.input)] else before
  }

  function ToolResultsIn(blocks: seq<Block>): seq<ToolResult> {
    if blocks == [] then []
    else
      var before, b := ToolResultsIn(blocks[..|blocks| - 1]), blocks[|blocks| - 1];
      if b.ToolResultBlock? then before + [ToolResult(b.id, b.content)] else before
  }

  /** A message of blocks is an assistant's question or, from the user, a tool message. */
  function ReadBack(m: AnthropicMessage): Message {
    match m.body
    case Str(text) => PlainMessage(m.role, text)
    case Blocks(blocks) =>
      if m.role == "assistant" then Message("assistant", TextIn(blocks), CallsIn(blocks), [])
      else Message("tool", "", [], ToolResultsIn(blocks))
  }

  /** The calls with their inputs as JSON leaves them. */
  function Normalized(m: Message, parse: string -> string): Message {
    m.(toolCalls := seq(|m.toolCalls|, i requires 0 <= i < |m.toolCalls| => m.toolCalls[i].(input := parse(m.toolCalls[i].input))))
  }

  lemma {:induction false} CallsInUseBlocks(prefix: seq<Block>, calls: seq<ToolCall>, parse: string -> string)
    requires prefix == [] || (|prefix| == 1 && prefix[0].TextBlock?)
    ensures CallsIn(prefix + UseBlocks(calls, parse)) == Normalized(Message("", "", calls, []), parse).toolCalls
  {
    var blocks := prefix + UseBlocks(calls, parse);
    if calls == [] {
      assert blocks == prefix;
      if prefix != [] {
        assert prefix[..0] == [];
      }
    } else {
      var n := |calls| - 1;
      CallsInUseBlocks(prefix, calls[..n], parse);
      assert blocks[..|blocks| - 1] == prefix + UseBlocks(calls[..n], parse);
    }
  }

  lemma {:induction false} ToolResultsInBlocks(results: seq<ToolResult>)
    ensures ToolResultsIn(ResultBlocks(results)) == results
  {
    if results == [] {
    } else {
      var n := |results| - 1;
      ToolResultsInBlocks(results[..n]);
      assert ResultBlocks(results)[..n] == ResultBlocks(results[..n]);
      assert results == results[..n] + [results[n]];
    }
  }

  lemma ReadBackConverted(m: Message, parse: string -> string)
    requires Bare(m) || Asks(m) || (m == Message("tool", "", [], m.toolResults) && m.toolResults != [])
    ensures ReadBack(Converted(m, parse)) == Normalized(m, parse)
  {
    var prefix := if m.content != "" then [TextBlock(m.content)] else [];
    CallsInUseBlocks(prefix, m.toolCalls, parse);
    ToolResultsInBlocks(m.toolResults);
    if Asks(m) && prefix == [] {
      assert (prefix + UseBlocks(m.toolCalls, parse))[0].ToolUseBlock?;
    }
  }

  /** The messages that are not system prompts, each with its inputs normalized. */
  function Conversation(ms: seq<Message>, parse: string -> string): seq<Message> {
    if ms == [] then []
    else
      var before, m := Conversation(ms[..|ms| - 1], parse), ms[|ms| - 1];
      if m.role == "system" then before else before + [Normalized(m, parse)]
  }

  function AllReadBack(ms: seq<AnthropicMessage>): seq<Message> {
    seq(|ms|, i requires 0 <= i < |ms| => ReadBack(ms[i]))
  }

  lemma {:induction false} ReadBackOrderly(ms: seq<Message>, parse: string -> string)
    requires Orderly(ms)
    ensures AllReadBack(Anthropic(ms, parse).messages) == Conversation(ms, parse)
  {
    if ms == [] {
    } else {
      var n := |ms| - 1;
      OrderlyPrefix(ms);
      ReadBackOrderly(ms[..n], parse);
      if !Bare(ms[n]) && !Asks(ms[n]) {
        AnswerHasResults(ms[n - 1], ms[n]);
      }
      ReadBackConverted(ms[n], parse);
    }
  }

  /** Apart from the system prompt and the normalization of inputs, the Anthropic rendering loses nothing either. */
  lemma AnthropicRoundTrip(ms: seq<Message>, parse: string -> string)
    requires Matched(ms)
    ensures AllReadBack(Anthropic(ms, parse).messages) == Conversation(ms, parse)
  {
    MatchedIsOrderly(ms);
    ReadBackOrderly(ms, parse);
  }

  // ---------------------------------------------------------------- every request of every run

  /**
    Whatever the LLM and the tools do, no request of a run loses anything on OpenAI's wire, and every
    request is well paired there if and only if no message loaded with the role "tool" is sent.
  */
  lemma EveryOpenAIRequestIsPairedIff(env: Pipeline.Env, setup: Pipeline.Setup)
    requires Pipeline.BareSetup(setup)
    ensures forall r | r in Pipeline.Execute(env, setup).sent :: Regroup(OpenAI(r)) == r
    ensures (forall r | r in Pipeline.Execute(env, setup).sent :: WirePaired(OpenAI(r))) <==> !Pipeline.SendsStray(env, setup)
  {
    Pipeline.EveryRequestIsPairedIff(env, setup);
    forall r | r in Pipeline.Execute(env, setup).sent ensures Regroup(OpenAI(r)) == r && (WirePaired(OpenAI(r)) <==> Paired(r)) {
      OpenAIWireIsPairedIff(r);
      OpenAIRoundTrip(r);
    }
  }

  /** For setups as the prompt builder makes them: exactly an incoming message with the role "tool" breaks the pairing. */
  lemma BuiltOpenAIRequestsArePairedIff(env: Pipeline.Env, setup: Pipeline.Setup, incoming: Message)
    requires Pipeline.BuiltFor(setup, incoming)
    ensures (forall r | r in Pipeline.Execute(env, setup).sent :: WirePaired(OpenAI(r)))
       <==> !(env.hasClient && incoming.role == "tool")
  {
    Pipeline.BuiltIsBare(setup, incoming);
    Pipeline.BuiltSendsStrayIff(env, setup, incoming);
    EveryOpenAIRequestIsPairedIff(env, setup);
  }

  /** For Anthropic every request is answered, and loses nothing but the system prompt and the formatting of inputs. */
  lemma EveryAnthropicRequestIsPaired(env: Pipeline.Env, setup: Pipeline.Setup, request: seq<Message>, parse: string -> string)
    requires Pipeline.BareSetup(setup) && request in Pipeline.Execute(env, setup).sent
    ensures UsesAnswered(Anthropic(request, parse).messages)
    ensures AllReadBack(Anthropic(request, parse).messages) == Conversation(request, parse)
  {
    Pipeline.EveryRequestIsPairedIff(env, setup);
    AnthropicUsesAreAnswered(request, parse);
    AnthropicRoundTrip(request, parse);
  }

  // ---------------------------------------------------------------- the system prompt

  function SystemPart(m: Message): seq<string> {
    if m.role == "system" then [m.content] else []
  }

  /** The contents of the system messages, in order. */
  function Systems(ms: seq<Message>): seq<string> {
    if ms == [] then [] else Systems(ms[..|ms| - 1]) + SystemPart(ms[|ms| - 1])
  }

  lemma {:induction false} SystemsConcat(a: seq<Message>, b: seq<Message>)
    ensures Systems(a + b) == Systems(a) + Systems(b)
  {
    if b == [] {
      assert a + b == a && Systems(a) + [] == Systems(a);
    } else {
      var init, part := b[..|b| - 1], SystemPart(b[|b| - 1]);
      calc {
        Systems(a + b);
        { assert (a + b)[..|a + b| - 1] == a + init; }
        Systems(a + init) + part;
        { SystemsConcat(a, init); }
        Systems(a) + Systems(init) + part;
        Systems(a) + (Systems(init) + part);
        Systems(a) + Systems(b);
      }
    }
  }

  lemma SystemsOne(m: Message)
    ensures Systems([m]) == SystemPart(m)
  {
    assert [m][..0] == [];
    assert [] + SystemPart(m) == SystemPart(m);
  }

  /** The system field of a request is the last system message. */
  lemma {:induction false} SystemIsLast(ms: seq<Message>, parse: string -> string)
    ensures var systems := Systems(ms);
      Anthropic(ms, parse).system == if systems == [] then "" else systems[|systems| - 1]
  {
    if ms == [] {
    } else {
      SystemIsLast(ms[..|ms| - 1], parse);
    }
  }

  lemma {:induction false} StoredHasNoSystem(ms: seq<Message>)
    requires forall m | m in ms :: Pipeline.Stored(m)
    ensures Systems(ms) == []
  {
    if ms == [] {
    } else {
      StoredHasNoSystem(ms[..|ms| - 1]);
      assert Pipeline.Stored(ms[|ms| - 1]);
    }
  }

  /** The system messages of every request: the agent's prompt, and the incoming message if it is one. */
  function ExpectedSystems(systemPrompt: string, incoming: Message): seq<string> {
    (if systemPrompt != "" then [systemPrompt] else []) + SystemPart(incoming)
  }

  lemma SystemsWithPrompt(systemPrompt: string, messages: seq<Message>)
    ensures Systems(Pipeline.WithSystem(systemPrompt, messages)) ==
      (if systemPrompt != "" then [systemPrompt] else []) + Systems(messages)
  {
    var prompt := if systemPrompt != "" then [PlainMessage("system", systemPrompt)] else [];
    SystemsConcat(prompt, messages);
    SystemsOne(PlainMessage("system", systemPrompt));
  }

  lemma BuiltSystems(setup: Pipeline.Setup, incoming: Message)
    requires Pipeline.BuiltFor(setup, incoming)
    ensures Systems(setup.history) == SystemPart(incoming)
  {
    var before := setup.history[..|setup.history| - 1];
    assert setup.history == before + [incoming];
    StoredHasNoSystem(before);
    SystemsConcat(before, [incoming]);
    SystemsOne(incoming);
    assert [] + SystemPart(incoming) == SystemPart(incoming);
  }

  /** The last four messages of a built history hold no system message but the incoming one. */
  lemma LastFourSystems(setup: Pipeline.Setup, incoming: Message)
    requires Pipeline.BuiltFor(setup, incoming) && |setup.history| >= 4
    ensures Systems(setup.history[|setup.history| - 4..]) == SystemPart(incoming)
  {
    var n := |setup.history|;
    var last := setup.history[n - 4..];
    assert last == setup.history[n - 4..n - 1] + [incoming];
    Pipeline.BuiltIsBare(setup, incoming);
    StoredHasNoSystem(setup.history[n - 4..n - 1]);
    SystemsConcat(setup.history[n - 4..n - 1], [incoming]);
    SystemsOne(incoming);
    assert [] + SystemPart(incoming) == SystemPart(incoming);
  }

  /** Compaction keeps the agent's prompt and the incoming message, and drops stored messages only. */
  lemma FirstRequestSystems(env: Pipeline.Env, setup: Pipeline.Setup, incoming: Message)
    requires Pipeline.BuiltFor(setup, incoming)
    ensures Systems(Pipeline.FirstRequest(env, setup.systemPrompt, setup.history)) == ExpectedSystems(setup.systemPrompt, incoming)
  {
    var prompt, history := setup.systemPrompt, setup.history;
    var request := Pipeline.FirstRequest(env, prompt, history);
    Pipeline.CompactedRequest(env, prompt, history);
    if Pipeline.Compacts(env, prompt, history) {
      CompactedSystems(setup, incoming, request);
    } else {
      SystemsWithPrompt(prompt, history);
      BuiltSystems(setup, incoming);
    }
  }

  lemma CompactedSystems(setup: Pipeline.Setup, incoming: Message, request: seq<Message>)
    requires Pipeline.BuiltFor(setup, incoming)
    requires var messages := Pipeline.WithSystem(setup.systemPrompt, setup.history);
      && |request| == 6 < |messages| + 1 && request[0] == messages[0] && request[1].role == "user"
      && request[2..] == messages[|messages| - 4..]
    ensures Systems(request) == ExpectedSystems(setup.systemPrompt, incoming)
  {
    var prompt, history := setup.systemPrompt, setup.history;
    Pipeline.LastFour(if prompt != "" then [PlainMessage("system", prompt)] else [], history);
    LastFourSystems(setup, incoming);
    Pipeline.BuiltIsBare(setup, incoming);
    SystemsInParts(request);
    if prompt == "" {
      assert request[0] == history[0] && Pipeline.Stored(history[0]);
    } else {
      assert request[0] == PlainMessage("system", prompt);
    }
  }

  lemma SystemsInParts(request: seq<Message>)
    requires |request| >= 2 && request[1].role != "system"
    ensures Systems(request) == SystemPart(request[0]) + Systems(request[2..])
  {
    SystemsOne(request[0]);
    SystemsOne(request[1]);
    SystemsConcat([request[0]], [request[1]]);
    SystemsConcat([request[0]] + [request[1]], request[2..]);
    assert request == [request[0]] + [request[1]] + request[2..];
    assert SystemPart(request[0]) + [] == SystemPart(request[0]);
  }

  /** All requests but the first have these system messages, and the tool loop has added none. */
  ghost predicate LaterSystems(run: Pipeline.Run, systems: seq<string>) {
    && Systems(run.added) == []
    && forall k | 1 <= k < |run.sent| :: Systems(run.sent[k]) == systems
  }

  /** The same, where the next request will have them too. */
  ghost predicate SystemsStand(run: Pipeline.Run, systemPrompt: string, systems: seq<string>) {
    LaterSystems(run, systems) && run.sent != [] && systems == Systems(Pipeline.WithSystem(systemPrompt, run.history))
  }

  lemma ToolTurnHasNoSystem(added: seq<Message>, q: Message, a: Message)
    requires Systems(added) == [] && q.role == "assistant" && a.role == "tool"
    ensures Systems(added + [q]) == [] && Systems(added + [q, a]) == []
  {
    SystemsConcat(added, [q]);
    SystemsOne(q);
    SystemsConcat(added + [q], [a]);
    SystemsOne(a);
    assert added + [q] + [a] == added + [q, a];
  }

  lemma RunToolsSystems(env: Pipeline.Env, run: Pipeline.Run, systems: seq<string>)
    requires LaterSystems(run, systems)
    ensures var ran := Pipeline.RunTools(env, run).run;
      LaterSystems(ran, systems) && ran.sent == run.sent && ran.history == run.history
  {
    ToolTurnHasNoSystem(run.added, Pipeline.Question(run), Message("tool", "", [], []));
    if Pipeline.RunTools(env, run).Continue? {
      var outputs := Pipeline.Outputs(env, run.calls, |run.executed|);
      ToolTurnHasNoSystem(run.added, Pipeline.Question(run), Pipeline.Answer(run.calls, outputs));
    }
  }

  lemma ConverseSystems(env: Pipeline.Env, run: Pipeline.Run, request: seq<Message>, at: string, systems: seq<string>)
    requires LaterSystems(run, systems) && (run.sent != [] ==> Systems(request) == systems)
    ensures var outcome := Pipeline.Converse(env, run, request, at);
      && LaterSystems(outcome.run, systems) && outcome.run.history == run.history
      && outcome.run.sent == run.sent + [request]
  {
  }

  lemma IterateSystems(env: Pipeline.Env, systemPrompt: string, run: Pipeline.Run, systems: seq<string>)
    requires SystemsStand(run, systemPrompt, systems)
    ensures SystemsStand(Pipeline.Iterate(env, systemPrompt, run).run, systemPrompt, systems)
  {
    RunToolsSystems(env, run, systems);
    var ran := Pipeline.RunTools(env, run);
    if ran.Continue? && env.hasClient {
      var request := Pipeline.WithSystem(systemPrompt, ran.run.history + ran.run.added);
      SystemsWithPrompt(systemPrompt, ran.run.history);
      SystemsWithPrompt(systemPrompt, ran.run.history + ran.run.added);
      SystemsConcat(ran.run.history, ran.run.added);
      assert Systems(ran.run.history) + [] == Systems(ran.run.history);
      ConverseSystems(env, ran.run, request, " in tool loop", systems);
    }
  }

  lemma {:induction false} ToolLoopSystems(env: Pipeline.Env, systemPrompt: string, run: Pipeline.Run, systems: seq<string>, iterations: nat)
    requires SystemsStand(run, systemPrompt, systems)
    ensures LaterSystems(Pipeline.ToolLoop(env, systemPrompt, run, iterations).run, systems)
    decreases iterations
  {
    if iterations == 0 {
    } else {
      var outcome := Pipeline.Iterate(env, systemPrompt, run);
      IterateSystems(env, systemPrompt, run, systems);
      Pipeline.LoopStep(env, systemPrompt, run, iterations, Pipeline.ToolLoop(env, systemPrompt, run, iterations), outcome.run,
                        if outcome.Abort? then Some(outcome.error) else None, outcome.Crash?);
      if outcome.Continue? && outcome.run.calls != [] {
        ToolLoopSystems(env, systemPrompt, outcome.run, systems, iterations - 1);
      }
    }
  }

  lemma InvokedSystems(env: Pipeline.Env, setup: Pipeline.Setup, incoming: Message)
    requires Pipeline.BuiltFor(setup, incoming) && env.hasClient
    ensures var invoked := Pipeline.InvokeLLM(env, setup.systemPrompt, Pipeline.StartRun(setup.history));
      && LaterSystems(invoked.run, ExpectedSystems(setup.systemPrompt, incoming))
      && invoked.run.sent != [] && invoked.run.history == setup.history
  {
    assert setup.history + [] == setup.history;
    ConverseSystems(env, Pipeline.StartRun(setup.history), Pipeline.FirstRequest(env, setup.systemPrompt, setup.history),
                    "", ExpectedSystems(setup.systemPrompt, incoming));
  }

  lemma LaterRequestSystems(env: Pipeline.Env, setup: Pipeline.Setup, incoming: Message)
    requires Pipeline.BuiltFor(setup, incoming) && env.hasClient
    ensures LaterSystems(Pipeline.Execute(env, setup), ExpectedSystems(setup.systemPrompt, incoming))
  {
    BuiltSystems(setup, incoming);
    SystemsWithPrompt(setup.systemPrompt, setup.history);
    InvokedSystems(env, setup, incoming);
    var invoked := Pipeline.InvokeLLM(env, setup.systemPrompt, Pipeline.StartRun(setup.history));
    if invoked.Continue? && invoked.run.calls != [] && env.hasExecutor {
      ToolLoopSystems(env, setup.systemPrompt, invoked.run, ExpectedSystems(setup.systemPrompt, incoming), Pipeline.MaxIter(env));
    }
  }

  lemma WithoutClientNothingIsSent(env: Pipeline.Env, setup: Pipeline.Setup)
    requires !env.hasClient
    ensures Pipeline.Execute(env, setup).sent == []
  {
  }

  lemma RequestSystems(env: Pipeline.Env, setup: Pipeline.Setup, incoming: Message, request: seq<Message>)
    requires Pipeline.BuiltFor(setup, incoming) && request in Pipeline.Execute(env, setup).sent
    ensures Systems(request) == ExpectedSystems(setup.systemPrompt, incoming)
  {
    if !env.hasClient {
      WithoutClientNothingIsSent(env, setup);
    } else {
      Pipeline.FirstIsSentFirst(env, setup);
      FirstRequestSystems(env, setup, incoming);
      LaterRequestSystems(env, setup, incoming);
    }
  }

  /**
    In every request of every run the system field is the agent's prompt if and only if the incoming message
    is not a system message with another text; such a message takes its place.
  */
  lemma SystemPromptIsKeptIff(env: Pipeline.Env, setup: Pipeline.Setup, incoming: Message,
                              request: seq<Message>, parse: string -> string)
    requires Pipeline.BuiltFor(setup, incoming) && request in Pipeline.Execute(env, setup).sent
    ensures var system := Anthropic(request, parse).system;
      && (system == setup.systemPrompt <==> incoming.role != "system" || incoming.content == setup.systemPrompt)
      && (incoming.role == "system" ==> system == incoming.content)
  {
    RequestSystems(env, setup, incoming, request);
    SystemIsLast(request, parse);
  }

  /** A client's message with the role "system" takes the place of the agent's prompt and is no message of the request. */
  lemma ClientReplacesSystemPrompt(env: Pipeline.Env, systemPrompt: string, content: string, parse: string -> string)
    requires env.hasClient && systemPrompt != ""
    ensures var sent := Pipeline.Execute(env, Pipeline.Ready(systemPrompt, [PlainMessage("system", content)])).sent;
      |sent| > 0 && Anthropic(sent[0], parse) == Request(content, [])
  {
    var prompt, message := PlainMessage("system", systemPrompt), PlainMessage("system", content);
    Pipeline.FirstIsSentFirst(env, Pipeline.Ready(systemPrompt, [message]));
    assert Pipeline.FirstRequest(env, systemPrompt, [message]) == [prompt, message];
    assert Anthropic([prompt], parse) == Request(systemPrompt, []) by {
      assert [prompt][..0] == [];
    }
    assert [prompt, message][..|[prompt, message]| - 1] == [prompt];
  }
}
