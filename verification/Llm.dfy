/**
  The provider-neutral types of `internal/burrow/llm/client.go`, and what it means for a list of
  messages to pair tool use, which the provider APIs demand of every request.
*/
module Llm {
  import opened Common

  datatype ToolCall = ToolCall(id: string, name: string, input: string)

  datatype ToolResult = ToolResult(toolUseID: string, content: string)

  datatype Message = Message(role: string, content: string, toolCalls: seq<ToolCall>, toolResults: seq<ToolResult>)

  /** A piece of a streamed response. */
  datatype Chunk =
    | Text(content: string, finishReason: string)
    | ToolUse(call: Option<ToolCall>)
    | Usage
    | Done
    | Error(content: string)

  function PlainMessage(role: string, content: string): Message {
    Message(role, content, [], [])
  }

  function CallIds(calls: seq<ToolCall>): seq<string> {
    seq(|calls|, i requires 0 <= i < |calls| => calls[i].id)
  }

  function ResultIds(results: seq<ToolResult>): seq<string> {
    seq(|results|, i requires 0 <= i < |results| => results[i].toolUseID)
  }

  /** A message without tool blocks. */
  predicate Bare(m: Message) {
    m.toolCalls == [] && m.toolResults == []
  }

  /** A tool message that answers nothing; its role can only come from outside. */
  predicate Stray(m: Message) {
    Bare(m) && m.role == "tool"
  }

  predicate Asks(m: Message) {
    m.role == "assistant" && m.toolCalls != [] && m.toolResults == []
  }

  /** `a` is the tool message that answers every call of `q`, in order. */
  predicate Answers(q: Message, a: Message) {
    && a.role == "tool" && a.content == "" && a.toolCalls == []
    && ResultIds(a.toolResults) == CallIds(q.toolCalls)
  }

  predicate MatchedAt(ms: seq<Message>, i: nat)
    requires i < |ms|
  {
    || Bare(ms[i])
    || (Asks(ms[i]) && i + 1 < |ms| && Answers(ms[i], ms[i + 1]))
    || (i > 0 && Asks(ms[i - 1]) && Answers(ms[i - 1], ms[i]))
  }

  /**
    Each message with tool calls is immediately followed by the tool message that answers it, and
    tool results appear nowhere else.
  */
  predicate Matched(ms: seq<Message>) {
    forall i | 0 <= i < |ms| :: MatchedAt(ms, i)
  }

  predicate NoStray(ms: seq<Message>) {
    forall m | m in ms :: !Stray(m)
  }

  /** Calls and results are matched, and no message with the role "tool" appears otherwise. */
  predicate Paired(ms: seq<Message>) {
    Matched(ms) && NoStray(ms)
  }

  lemma MatchedConcat(a: seq<Message>, b: seq<Message>)
    requires Matched(a) && Matched(b)
    ensures Matched(a + b)
  {
    var ms := a + b;
    forall i | 0 <= i < |ms| ensures MatchedAt(ms, i) {
      if i < |a| {
        assert MatchedAt(a, i);
      } else {
        assert MatchedAt(b, i - |a|);
      }
    }
  }

  lemma NoStrayConcat(a: seq<Message>, b: seq<Message>)
    ensures NoStray(a + b) <==> NoStray(a) && NoStray(b)
  {
    if NoStray(a + b) {
      assert forall m | m in a :: m in a + b;
      assert forall m | m in b :: m in a + b;
    }
  }

  // ---------------------------------------------------------------- what a list of chunks carries

  function CallsIn(chunks: seq<Chunk>): seq<ToolCall> {
    if chunks == [] then []
    else
      var before := CallsIn(chunks[..|chunks| - 1]);
      match chunks[|chunks| - 1]
      case ToolUse(Some(call)) => before + [call]
      case _ => before
  }

  function TextIn(chunks: seq<Chunk>): string {
    if chunks == [] then ""
    else
      var before := TextIn(chunks[..|chunks| - 1]);
      match chunks[|chunks| - 1]
      case Text(content, _) => before + content
      case _ => before
  }

  /** The chunks before the first error chunk; nothing after that is read. */
  function BeforeError(chunks: seq<Chunk>): (heard: seq<Chunk>)
    ensures heard <= chunks
    ensures forall c | c in heard :: !c.Error?
    ensures |heard| < |chunks| ==> chunks[|heard|].Error?
  {
    if chunks == [] then []
    else
      var heard := BeforeError(chunks[..|chunks| - 1]);
      if |heard| < |chunks| - 1 || chunks[|chunks| - 1].Error? then heard else chunks
  }

  lemma {:induction false} TextInConcat(a: seq<Chunk>, b: seq<Chunk>)
    ensures TextIn(a + b) == TextIn(a) + TextIn(b)
  {
    if b == [] {
      assert a + b == a;
    } else {
      assert (a + b)[..|a + b| - 1] == a + b[..|b| - 1];
      TextInConcat(a, b[..|b| - 1]);
    }
  }

  lemma {:induction false} CallsInConcat(a: seq<Chunk>, b: seq<Chunk>)
    ensures CallsIn(a + b) == CallsIn(a) + CallsIn(b)
  {
    if b == [] {
      assert a + b == a;
    } else {
      assert (a + b)[..|a + b| - 1] == a + b[..|b| - 1];
      CallsInConcat(a, b[..|b| - 1]);
    }
  }
}
