/**
  The agent pipeline, `internal/burrow/pipeline.go`: the first LLM call, the tool loop, and the
  channel of output chunks.

  The LLM and the tools are unconstrained: the n-th stream of a run is an arbitrary refusal or an
  arbitrary finite sequence of chunks, and each tool execution returns an arbitrary output or error.
*/
module Pipeline {
  import opened Common
  import opened Llm

  datatype Stream = Refused(error: string) | Chunks(chunks: seq<Chunk>)

  /** What decoding a tool input into a map gives: an error, a nil map, or the fields of an object. */
  datatype Decoded = Malformed | Null | Object(fields: map<string, string>)

  datatype ToolReturn = ToolFailed(error: string) | ToolReturned(output: string, error: string)

  /** Everything a run depends on. The k-th call taken up looks its tool up and runs it with index k. */
  datatype Env = Env(
    hasClient: bool,
    hasExecutor: bool,
    configuredMaxIter: int,
    agentID: string,
    llm: nat -> Stream,                                      // the n-th stream opened
    registered: (nat, string) -> bool,
    decode: string -> Decoded,
    tool: (nat, string, map<string, string>) -> ToolReturn,
    shouldCompact: nat -> bool,                              // false without a compactor or a context manager
    summarize: seq<Message> -> Option<string>                // None: compaction failed
  )

  datatype Setup =
    | SetupFails(stage: string, error: string)              // a stage before the LLM call failed
    | Ready(systemPrompt: string, history: seq<Message>)    // prompt and messages, the user's last

  /** A chunk on the output channel. */
  datatype Output = TextOut(content: string) | ResultOut(content: string) | DoneOut | ErrorOut(error: string)

  /** The request as it travels: `added` is what the tool loop appends to `history`. */
  datatype Run = Run(
    history: seq<Message>, added: seq<Message>,
    calls: seq<ToolCall>, content: string,
    output: seq<Output>,
    sent: seq<seq<Message>>,      // the message list of every stream opened
    executed: seq<ToolCall>
  )

  /** A stage goes on, fails, or panics, which ends the whole process. */
  datatype Outcome = Continue(run: Run) | Abort(run: Run, error: string) | Crash(run: Run)

  function MaxIter(env: Env): nat {
    if env.configuredMaxIter > 0 then env.configuredMaxIter else 10
  }

  // ---------------------------------------------------------------- reading one stream

  /** What a stream yields up to its end or its first error chunk. */
  datatype Turn = Turn(texts: seq<string>, calls: seq<ToolCall>, error: Option<string>)

  function Hear(turn: Turn, chunk: Chunk): Turn {
    if turn.error.Some? then turn
    else
      match chunk
      case Text(content, _) => turn.(texts := turn.texts + [content])
      case ToolUse(Some(call)) => turn.(calls := turn.calls + [call])
      case Error(content) => turn.(error := Some(content))
      case _ => turn
  }

  function Read(chunks: seq<Chunk>): Turn {
    if chunks == [] then Turn([], [], None)
    else Hear(Read(chunks[..|chunks| - 1]), chunks[|chunks| - 1])
  }

  function Concat(texts: seq<string>): string {
    if texts == [] then "" else Concat(texts[..|texts| - 1]) + texts[|texts| - 1]
  }

  /** What is read of a stream is all text and all calls before its first error, and that error. */
  lemma {:induction false} ReadIsHeard(chunks: seq<Chunk>)
    ensures var turn, heard := Read(chunks), BeforeError(chunks);
      && Concat(turn.texts) == TextIn(heard)
      && turn.calls == CallsIn(heard)
      && turn.error == if heard == chunks then None else Some(chunks[|heard|].content)
  {
    if chunks == [] {
    } else {
      var before, last := chunks[..|chunks| - 1], chunks[|chunks| - 1];
      ReadIsHeard(before);
      if BeforeError(before) == before && !last.Error? {
        var texts := Read(before).texts;
        assert last.Text? ==> (texts + [last.content])[..|texts|] == texts;
      }
    }
  }

  function Texts(texts: seq<string>): seq<Output> {
    seq(|texts|, i requires 0 <= i < |texts| => TextOut(texts[i]))
  }

  // ---------------------------------------------------------------- the request to the LLM

  function WithSystem(systemPrompt: string, messages: seq<Message>): seq<Message> {
    (if systemPrompt != "" then [PlainMessage("system", systemPrompt)] else []) + messages
  }

  function CallTokens(calls: seq<ToolCall>): nat {
    if calls == [] then 0 else CallTokens(calls[..|calls| - 1]) + |calls[|calls| - 1].input| / 3
  }

  function ResultTokens(results: seq<ToolResult>): nat {
    if results == [] then 0 else ResultTokens(results[..|results| - 1]) + |results[|results| - 1].content| / 3
  }

  function EstimateTokens(messages: seq<Message>): nat {
    if messages == [] then 0
    else
      var m := messages[|messages| - 1];
      EstimateTokens(messages[..|messages| - 1]) + |m.content| / 3 + CallTokens(m.toolCalls) + ResultTokens(m.toolResults)
  }

  /** `compactMessages`: the first message, a summary of the middle, and the last four. */
  function Compact(env: Env, messages: seq<Message>): seq<Message> {
    if |messages| <= 5 then messages
    else
      var recent := |messages| - 4;
      match env.summarize(messages[1..recent])
      case None => messages
      case Some(summary) =>
        [messages[0], PlainMessage("user", "[Previous conversation summary]\n" + summary)] + messages[recent..]
  }

  function FirstRequest(env: Env, systemPrompt: string, history: seq<Message>): seq<Message> {
    var messages := WithSystem(systemPrompt, history);
    if |messages| > 3 && env.shouldCompact(EstimateTokens(messages)) then Compact(env, messages) else messages
  }

  // ---------------------------------------------------------------- the stages, as functions

  /** Open a stream with `request` and take in all of it. */
  function Converse(env: Env, run: Run, request: seq<Message>, where: string): Outcome {
    var asked := run.(sent := run.sent + [request]);
    match env.llm(|run.sent|)
    case Refused(error) => Abort(asked, "LLM stream" + where + ": " + error)
    case Chunks(chunks) =>
      var turn := Read(chunks);
      var heard := asked.(output := run.output + Texts(turn.texts), calls := run.calls + turn.calls);
      match turn.error
      case Some(error) => Abort(heard, "LLM error" + where + ": " + error)
      case None => Continue(heard.(content := Concat(turn.texts)))
  }

  function InvokeLLM(env: Env, systemPrompt: string, run: Run): Outcome {
    if !env.hasClient then Abort(run, "no LLM provider configured")
    else Converse(env, run, FirstRequest(env, systemPrompt, run.history + run.added), "")
  }

  /** Lines 603-608: the arguments of a tool; the agent's id cannot be written into a nil map. */
  function Arguments(env: Env, call: ToolCall): Option<map<string, string>> {
    match env.decode(call.input)
    case Malformed => Some(map["raw" := call.input]["_agent_id" := env.agentID])
    case Null => None
    case Object(fields) => Some(fields["_agent_id" := env.agentID])
  }

  /** Taking up `call` as the run's k-th panics. */
  predicate Panics(env: Env, k: nat, call: ToolCall) {
    env.registered(k, call.name) && env.decode(call.input).Null?
  }

  /** Lines 594-628: what the run's k-th call puts out. */
  function OutputOf(env: Env, k: nat, call: ToolCall): string
    requires !Panics(env, k, call)
  {
    if !env.registered(k, call.name) then "Error: tool not found: " + call.name
    else
      match env.tool(k, call.name, Arguments(env, call).value)
      case ToolFailed(error) => "Error: " + error
      case ToolReturned(output, error) => if error != "" then "Error: " + error else output
  }

  /** None of `calls` panics, the first of them being the run's `done`-th. */
  predicate Harmless(env: Env, calls: seq<ToolCall>, done: nat) {
    forall i | 0 <= i < |calls| :: !Panics(env, done + i, calls[i])
  }

  /** How many of `calls` are executed: all, or those before the first that panics. */
  function Executable(env: Env, calls: seq<ToolCall>, done: nat): (n: nat)
    ensures n <= |calls| && Harmless(env, calls[..n], done)
    ensures n < |calls| ==> Panics(env, done + n, calls[n])
    ensures n == |calls| <==> Harmless(env, calls, done)
  {
    if calls == [] then 0
    else
      var before := calls[..|calls| - 1];
      var n := Executable(env, before, done);
      HarmlessPrefix(env, calls, done);
      assert n < |before| ==> before[n] == calls[n] && before[..n] == calls[..n];
      assert before[..|before|] == before && calls[..|calls|] == calls;
      if n < |before| || Panics(env, done + n, calls[n]) then n else n + 1
  }

  lemma HarmlessPrefix(env: Env, calls: seq<ToolCall>, done: nat)
    requires calls != []
    ensures var last := |calls| - 1;
      Harmless(env, calls, done) <==> Harmless(env, calls[..last], done) && !Panics(env, done + last, calls[last])
  {
    var before := calls[..|calls| - 1];
    assert forall i | 0 <= i < |before| :: before[i] == calls[i];
  }

  /** The outputs of executing `calls`, the first of them being the run's `done`-th. */
  function Outputs(env: Env, calls: seq<ToolCall>, done: nat): seq<string>
    requires Harmless(env, calls, done)
  {
    seq(|calls|, i requires 0 <= i < |calls| => OutputOf(env, done + i, calls[i]))
  }

  function Results(calls: seq<ToolCall>, outputs: seq<string>): seq<ToolResult>
    requires |calls| == |outputs|
  {
    seq(|calls|, i requires 0 <= i < |calls| => ToolResult(calls[i].id, outputs[i]))
  }

  function ResultChunks(outputs: seq<string>): seq<Output> {
    seq(|outputs|, i requires 0 <= i < |outputs| => ResultOut(outputs[i]))
  }

  function Question(run: Run): Message {
    Message("assistant", run.content, run.calls, [])
  }

  function Answer(calls: seq<ToolCall>, outputs: seq<string>): Message
    requires |calls| == |outputs|
  {
    Message("tool", "", [], Results(calls, outputs))
  }

  /** Append the assistant's message and execute its calls up to the first that panics, if any. */
  function Ask(env: Env, run: Run): Run {
    var ran := run.calls[..Executable(env, run.calls, |run.executed|)];
    run.(added := run.added + [Question(run)],
         content := "",
         output := run.output + ResultChunks(Outputs(env, ran, |run.executed|)),
         executed := run.executed + ran)
  }

  /** One assistant message, its calls, and the tool message, unless a call panics. */
  function RunTools(env: Env, run: Run): Outcome {
    var asked := Ask(env, run);
    if !Harmless(env, run.calls, |run.executed|) then Crash(asked)
    else
      var outputs := Outputs(env, run.calls, |run.executed|);
      Continue(asked.(added := run.added + [Question(run), Answer(run.calls, outputs)], calls := []))
  }

  /** One round of the tool loop. */
  function Iterate(env: Env, systemPrompt: string, run: Run): Outcome {
    var ran := RunTools(env, run);
    if ran.Crash? || !env.hasClient then ran
    else Converse(env, ran.run, WithSystem(systemPrompt, ran.run.history + ran.run.added), " in tool loop")
  }

  function ToolLoop(env: Env, systemPrompt: string, run: Run, iterations: nat): Outcome
    decreases iterations
  {
    if iterations == 0 then Continue(run)
    else
      var outcome := Iterate(env, systemPrompt, run);
      if !outcome.Continue? || outcome.run.calls == [] then outcome
      else ToolLoop(env, systemPrompt, outcome.run, iterations - 1)
  }

  function ExecuteTools(env: Env, systemPrompt: string, run: Run): Outcome {
    if run.calls == [] || !env.hasExecutor then Continue(run)
    else ToolLoop(env, systemPrompt, run, MaxIter(env))
  }

  function StartRun(history: seq<Message>): Run {
    Run(history, [], [], "", [], [], [])
  }

  function StageFailed(stage: string, error: string): Output {
    ErrorOut("pipeline stage " + stage + " failed: " + error)
  }

  /** A whole run; its last chunk tells whether it was done or failed, unless it crashed. */
  function Execute(env: Env, setup: Setup): Run {
    match setup
    case SetupFails(stage, error) =>
      StartRun([]).(output := [StageFailed(stage, error)])
    case Ready(systemPrompt, history) =>
      match InvokeLLM(env, systemPrompt, StartRun(history))
      case Abort(run, error) => run.(output := run.output + [StageFailed("llm_invoker", error)])
      case Crash(run) => run
      case Continue(run) =>
        match ExecuteTools(env, systemPrompt, run)
        case Abort(run', error) => run'.(output := run'.output + [StageFailed("tool_executor", error)])
        case Crash(run') => run'
        case Continue(run') => run'.(output := run'.output + [DoneOut])
  }

  // ---------------------------------------------------------------- accounts of a run

  function TextPart(o: Output): string {
    if o.TextOut? then o.content else ""
  }

  function TextOf(output: seq<Output>): string {
    if output == [] then "" else TextOf(output[..|output| - 1]) + TextPart(output[|output| - 1])
  }

  function ResultPart(o: Output): seq<string> {
    if o.ResultOut? then [o.content] else []
  }

  function ResultsOf(output: seq<Output>): seq<string> {
    if output == [] then [] else ResultsOf(output[..|output| - 1]) + ResultPart(output[|output| - 1])
  }

  function ContentsOf(messages: seq<Message>): string {
    if messages == [] then "" else ContentsOf(messages[..|messages| - 1]) + messages[|messages| - 1].content
  }

  function CallsOf(messages: seq<Message>): seq<ToolCall> {
    if messages == [] then [] else CallsOf(messages[..|messages| - 1]) + messages[|messages| - 1].toolCalls
  }

  function ResultsIn(messages: seq<Message>): seq<ToolResult> {
    if messages == [] then [] else ResultsIn(messages[..|messages| - 1]) + messages[|messages| - 1].toolResults
  }

  /** The calls the LLM asked for in its n-th stream. */
  function RequestedAt(env: Env, n: nat): seq<ToolCall> {
    match env.llm(n)
    case Refused(_) => []
    case Chunks(chunks) => CallsIn(BeforeError(chunks))
  }

  /** All calls the LLM asked for in its first `n` streams. */
  function Requested(env: Env, n: nat): seq<ToolCall> {
    if n == 0 then [] else Requested(env, n - 1) + RequestedAt(env, n - 1)
  }

  predicate Terminal(o: Output) {
    o.DoneOut? || o.ErrorOut?
  }

  lemma {:induction false} TextOfConcat(a: seq<Output>, b: seq<Output>)
    ensures TextOf(a + b) == TextOf(a) + TextOf(b)
  {
    if b == [] {
      assert a + b == a && TextOf(a) + "" == TextOf(a);
    } else {
      var init, part := b[..|b| - 1], TextPart(b[|b| - 1]);
      calc {
        TextOf(a + b);
        { assert (a + b)[..|a + b| - 1] == a + init; }
        TextOf(a + init) + part;
        { TextOfConcat(a, init); }
        TextOf(a) + TextOf(init) + part;
        TextOf(a) + (TextOf(init) + part);
        TextOf(a) + TextOf(b);
      }
    }
  }

  lemma {:induction false} ResultsOfConcat(a: seq<Output>, b: seq<Output>)
    ensures ResultsOf(a + b) == ResultsOf(a) + ResultsOf(b)
  {
    if b == [] {
      assert a + b == a && ResultsOf(a) + [] == ResultsOf(a);
    } else {
      var init, part := b[..|b| - 1], ResultPart(b[|b| - 1]);
      calc {
        ResultsOf(a + b);
        { assert (a + b)[..|a + b| - 1] == a + init; }
        ResultsOf(a + init) + part;
        { ResultsOfConcat(a, init); }
        ResultsOf(a) + ResultsOf(init) + part;
        ResultsOf(a) + (ResultsOf(init) + part);
        ResultsOf(a) + ResultsOf(b);
      }
    }
  }

  lemma {:induction false} TextOfTexts(texts: seq<string>)
    ensures TextOf(Texts(texts)) == Concat(texts) && ResultsOf(Texts(texts)) == []
  {
    if texts == [] {
    } else {
      TextOfTexts(texts[..|texts| - 1]);
      assert Texts(texts)[..|texts| - 1] == Texts(texts[..|texts| - 1]);
    }
  }

  lemma {:induction false} ResultsOfChunks(outputs: seq<string>)
    ensures TextOf(ResultChunks(outputs)) == "" && ResultsOf(ResultChunks(outputs)) == outputs
  {
    if outputs == [] {
    } else {
      var before, last := outputs[..|outputs| - 1], outputs[|outputs| - 1];
      ResultsOfChunks(before);
      assert outputs == before + [last];
      assert ResultChunks(outputs) == ResultChunks(before) + [ResultOut(last)];
      OneMoreOutput(ResultChunks(before), ResultOut(last));
    }
  }

  lemma OneMoreOutput(output: seq<Output>, o: Output)
    ensures TextOf(output + [o]) == TextOf(output) + TextPart(o)
    ensures ResultsOf(output + [o]) == ResultsOf(output) + ResultPart(o)
  {
    assert (output + [o])[..|output|] == output;
  }

  // ---------------------------------------------------------------- what every stage keeps

  /** The messages of the k-th request that came from outside the tool loop. */
  function Loaded(env: Env, systemPrompt: string, history: seq<Message>, k: nat): seq<Message> {
    if k == 0 then FirstRequest(env, systemPrompt, history) else history
  }

  /** Requests match calls and results, and contain a stray tool message only if what was loaded does. */
  ghost predicate RequestsSound(env: Env, systemPrompt: string, run: Run) {
    forall k | 0 <= k < |run.sent| ::
      Matched(run.sent[k]) && (NoStray(run.sent[k]) <==> NoStray(Loaded(env, systemPrompt, run.history, k)))
  }

  /** Holds at every point of a run, also where it fails or crashes. */
  ghost predicate Sound(env: Env, systemPrompt: string, run: Run) {
    && (forall m | m in run.history :: Bare(m))
    && RequestsSound(env, systemPrompt, run)
    && (forall o | o in run.output :: !Terminal(o))
    && Harmless(env, run.executed, 0)
    && ResultsOf(run.output) == Outputs(env, run.executed, 0)
  }

  /** The tool loop's messages are paired and hold the executed calls and their outputs. */
  ghost predicate Whole(env: Env, added: seq<Message>, executed: seq<ToolCall>) {
    && Paired(added)
    && executed == CallsOf(added)
    && Harmless(env, executed, 0)
    && ResultsIn(added) == Results(executed, Outputs(env, executed, 0))
  }

  /** After a crash the last message is a question whose calls were executed up to the one that panics. */
  ghost predicate Cut(env: Env, run: Run) {
    && run.added != []
    && var before, question := run.added[..|run.added| - 1], run.added[|run.added| - 1];
       var n := Executable(env, question.toolCalls, |CallsOf(before)|);
       && Asks(question)
       && Whole(env, before, CallsOf(before))
       && n < |question.toolCalls|
       && run.executed == CallsOf(before) + question.toolCalls[..n]
  }

  /** Holds between stages: the streamed text is the transcript's text, and no requested call is lost. */
  ghost predicate Balanced(env: Env, run: Run) {
    && TextOf(run.output) == ContentsOf(run.added) + run.content
    && Requested(env, |run.sent|) == run.executed + run.calls
  }

  lemma BareIsMatched(ms: seq<Message>)
    requires forall m | m in ms :: Bare(m)
    ensures Matched(ms)
  {
  }

  lemma RequestIsSound(systemPrompt: string, history: seq<Message>, added: seq<Message>)
    requires (forall m | m in history :: Bare(m)) && Paired(added)
    ensures var request := WithSystem(systemPrompt, history + added);
      Matched(request) && (NoStray(request) <==> NoStray(history))
  {
    var system := WithSystem(systemPrompt, []);
    BareIsMatched(system + history);
    MatchedConcat(system + history, added);
    NoStrayConcat(system, history);
    NoStrayConcat(system + history, added);
    assert WithSystem(systemPrompt, history + added) == (system + history) + added;
  }

  /** Compaction sees only messages without tool blocks, and leaves only such messages. */
  lemma FirstRequestIsMatched(env: Env, systemPrompt: string, history: seq<Message>)
    requires forall m | m in history :: Bare(m)
    ensures Matched(FirstRequest(env, systemPrompt, history))
  {
    BareIsMatched(FirstRequest(env, systemPrompt, history));
  }

  lemma TextsAreNotTerminal(texts: seq<string>)
    ensures forall o | o in Texts(texts) :: !Terminal(o)
  {
  }

  lemma HearingKeepsAccounts(output: seq<Output>, texts: seq<string>)
    ensures TextOf(output + Texts(texts)) == TextOf(output) + Concat(texts)
    ensures ResultsOf(output + Texts(texts)) == ResultsOf(output)
  {
    TextOfConcat(output, Texts(texts));
    ResultsOfConcat(output, Texts(texts));
    TextOfTexts(texts);
  }

  lemma ConverseKeepsSound(env: Env, systemPrompt: string, run: Run, request: seq<Message>, where: string)
    requires Sound(env, systemPrompt, run) && Matched(request)
    requires NoStray(request) <==> NoStray(Loaded(env, systemPrompt, run.history, |run.sent|))
    ensures Sound(env, systemPrompt, Converse(env, run, request, where).run)
  {
    match env.llm(|run.sent|) {
      case Refused(_) =>
      case Chunks(chunks) =>
        HearingKeepsAccounts(run.output, Read(chunks).texts);
        TextsAreNotTerminal(Read(chunks).texts);
    }
  }

  lemma ConverseKeepsBalance(env: Env, run: Run, request: seq<Message>, where: string)
    requires Balanced(env, run) && run.content == ""
    requires Converse(env, run, request, where).Continue?
    ensures Balanced(env, Converse(env, run, request, where).run)
  {
    var turn := Read(env.llm(|run.sent|).chunks);
    ReadIsHeard(env.llm(|run.sent|).chunks);
    HeardText(run.output, turn.texts, ContentsOf(run.added));
    RequestedOneMore(env, |run.sent|, run.executed, run.calls, turn.calls);
  }

  lemma HeardText(output: seq<Output>, texts: seq<string>, contents: string)
    requires TextOf(output) == contents + ""
    ensures TextOf(output + Texts(texts)) == contents + Concat(texts)
  {
    HearingKeepsAccounts(output, texts);
    assert contents + "" == contents;
  }

  lemma RequestedOneMore(env: Env, n: nat, executed: seq<ToolCall>, calls: seq<ToolCall>, more: seq<ToolCall>)
    requires Requested(env, n) == executed + calls && RequestedAt(env, n) == more
    ensures Requested(env, n + 1) == executed + (calls + more)
  {
  }

  lemma ToolTurnIsPaired(content: string, calls: seq<ToolCall>, results: seq<ToolResult>)
    requires calls != [] && ResultIds(results) == CallIds(calls)
    ensures Paired([Message("assistant", content, calls, []), Message("tool", "", [], results)])
  {
    var ms := [Message("assistant", content, calls, []), Message("tool", "", [], results)];
    assert Asks(ms[0]) && Answers(ms[0], ms[1]);
    assert MatchedAt(ms, 0) && MatchedAt(ms, 1);
    assert |ResultIds(results)| == |CallIds(calls)|;
  }

  lemma AppendedTwo(added: seq<Message>, q: Message, a: Message)
    ensures ContentsOf(added + [q, a]) == ContentsOf(added) + q.content + a.content
    ensures CallsOf(added + [q, a]) == CallsOf(added) + q.toolCalls + a.toolCalls
    ensures ResultsIn(added + [q, a]) == ResultsIn(added) + q.toolResults + a.toolResults
  {
    assert (added + [q, a])[..|added| + 1] == added + [q];
    assert (added + [q])[..|added|] == added;
  }

  lemma RunningKeepsAccounts(output: seq<Output>, outputs: seq<string>)
    ensures TextOf(output + ResultChunks(outputs)) == TextOf(output)
    ensures ResultsOf(output + ResultChunks(outputs)) == ResultsOf(output) + outputs
  {
    TextOfConcat(output, ResultChunks(outputs));
    ResultsOfConcat(output, ResultChunks(outputs));
    ResultsOfChunks(outputs);
    assert TextOf(output) + "" == TextOf(output);
  }

  lemma HarmlessConcat(env: Env, executed: seq<ToolCall>, calls: seq<ToolCall>)
    requires Harmless(env, executed, 0) && Harmless(env, calls, |executed|)
    ensures Harmless(env, executed + calls, 0)
    ensures Outputs(env, executed + calls, 0) == Outputs(env, executed, 0) + Outputs(env, calls, |executed|)
  {
    forall i | 0 <= i < |executed + calls| ensures !Panics(env, i, (executed + calls)[i]) {
      if i < |executed| {
        assert !Panics(env, 0 + i, executed[i]);
      } else {
        assert !Panics(env, |executed| + (i - |executed|), calls[i - |executed|]);
      }
    }
  }

  lemma ResultsConcat(executed: seq<ToolCall>, before: seq<string>, calls: seq<ToolCall>, more: seq<string>)
    requires |executed| == |before| && |calls| == |more|
    ensures Results(executed + calls, before + more) == Results(executed, before) + Results(calls, more)
  {
  }

  lemma AskKeepsSound(env: Env, systemPrompt: string, run: Run)
    requires Sound(env, systemPrompt, run)
    ensures Sound(env, systemPrompt, Ask(env, run))
  {
    var ran := run.calls[..Executable(env, run.calls, |run.executed|)];
    HarmlessConcat(env, run.executed, ran);
    RunningKeepsAccounts(run.output, Outputs(env, ran, |run.executed|));
  }

  lemma RunToolsKeepsSound(env: Env, systemPrompt: string, run: Run)
    requires Sound(env, systemPrompt, run)
    ensures Sound(env, systemPrompt, RunTools(env, run).run)
  {
    AskKeepsSound(env, systemPrompt, run);
  }

  lemma RunToolsKeepsWhole(env: Env, run: Run)
    requires Whole(env, run.added, run.executed) && run.calls != [] && RunTools(env, run).Continue?
    ensures var ran := RunTools(env, run).run; Whole(env, ran.added, ran.executed)
  {
    var outputs := Outputs(env, run.calls, |run.executed|);
    var q, a := Question(run), Answer(run.calls, outputs);
    assert ResultIds(a.toolResults) == CallIds(run.calls);
    ToolTurnIsPaired(run.content, run.calls, a.toolResults);
    MatchedConcat(run.added, [q, a]);
    NoStrayConcat(run.added, [q, a]);
    AppendedTwo(run.added, q, a);
    AllExecuted(env, run);
    HarmlessConcat(env, run.executed, run.calls);
    ResultsConcat(run.executed, Outputs(env, run.executed, 0), run.calls, outputs);
    assert ResultsIn(run.added) + [] == ResultsIn(run.added);
    assert run.executed + run.calls + [] == run.executed + run.calls;
  }

  lemma AllExecuted(env: Env, run: Run)
    requires RunTools(env, run).Continue?
    ensures RunTools(env, run).run.executed == run.executed + run.calls
    ensures RunTools(env, run).run.output == run.output + ResultChunks(Outputs(env, run.calls, |run.executed|))
  {
    assert run.calls[..|run.calls|] == run.calls;
  }

  lemma CrashCuts(env: Env, run: Run)
    requires Whole(env, run.added, run.executed) && run.calls != [] && RunTools(env, run).Crash?
    ensures Cut(env, RunTools(env, run).run)
  {
    assert (run.added + [Question(run)])[..|run.added|] == run.added;
  }

  lemma RunToolsKeepsBalance(env: Env, run: Run)
    requires Balanced(env, run) && RunTools(env, run).Continue?
    ensures Balanced(env, RunTools(env, run).run)
  {
    var outputs := Outputs(env, run.calls, |run.executed|);
    AllExecuted(env, run);
    AppendedTwo(run.added, Question(run), Answer(run.calls, outputs));
    RunningKeepsAccounts(run.output, outputs);
    assert ContentsOf(run.added) + run.content + "" + "" == ContentsOf(run.added) + run.content;
    assert run.executed + run.calls + [] == run.executed + run.calls;
  }

  /** What a round or the whole loop leaves: a transcript that is cut exactly after a crash. */
  ghost predicate Kept(env: Env, systemPrompt: string, history: seq<Message>, outcome: Outcome) {
    && outcome.run.history == history
    && Sound(env, systemPrompt, outcome.run)
    && (outcome.Crash? ==> Cut(env, outcome.run))
    && (!outcome.Crash? ==> Whole(env, outcome.run.added, outcome.run.executed))
    && (outcome.Continue? ==> Balanced(env, outcome.run))
  }

  lemma ConverseKeeps(env: Env, systemPrompt: string, run: Run, request: seq<Message>, where: string)
    requires Kept(env, systemPrompt, run.history, Continue(run)) && run.content == "" && Matched(request)
    requires NoStray(request) <==> NoStray(Loaded(env, systemPrompt, run.history, |run.sent|))
    ensures Kept(env, systemPrompt, run.history, Converse(env, run, request, where))
  {
    ConverseKeepsSound(env, systemPrompt, run, request, where);
    if Converse(env, run, request, where).Continue? {
      ConverseKeepsBalance(env, run, request, where);
    }
  }

  lemma RunToolsKeeps(env: Env, systemPrompt: string, run: Run)
    requires Kept(env, systemPrompt, run.history, Continue(run)) && run.calls != []
    ensures Kept(env, systemPrompt, run.history, RunTools(env, run))
  {
    RunToolsKeepsSound(env, systemPrompt, run);
    if RunTools(env, run).Crash? {
      CrashCuts(env, run);
    } else {
      RunToolsKeepsWhole(env, run);
      RunToolsKeepsBalance(env, run);
    }
  }

  lemma IterateKeeps(env: Env, systemPrompt: string, run: Run)
    requires Kept(env, systemPrompt, run.history, Continue(run)) && run.calls != [] && run.sent != []
    ensures var outcome := Iterate(env, systemPrompt, run);
      && Kept(env, systemPrompt, run.history, outcome)
      && |outcome.run.sent| == |run.sent| + (if env.hasClient && !outcome.Crash? then 1 else 0)
      && (!env.hasClient && outcome.Continue? ==> outcome.run.calls == [])
  {
    RunToolsKeeps(env, systemPrompt, run);
    var ran := RunTools(env, run);
    if ran.Continue? && env.hasClient {
      RequestIsSound(systemPrompt, ran.run.history, ran.run.added);
      ConverseKeeps(env, systemPrompt, ran.run, WithSystem(systemPrompt, ran.run.history + ran.run.added), " in tool loop");
    }
  }

  lemma {:induction false} ToolLoopKeeps(env: Env, systemPrompt: string, run: Run, iterations: nat)
    requires Kept(env, systemPrompt, run.history, Continue(run)) && run.calls != [] && run.sent != []
    ensures var outcome := ToolLoop(env, systemPrompt, run, iterations);
      && Kept(env, systemPrompt, run.history, outcome)
      && |outcome.run.sent| <= |run.sent| + iterations
      && (iterations > 0 ==> |outcome.run.sent| >= |Iterate(env, systemPrompt, run).run.sent|)
      && (outcome.Continue? && outcome.run.calls != [] ==> |outcome.run.sent| == |run.sent| + iterations)
    decreases iterations
  {
    if iterations == 0 {
    } else {
      IterateKeeps(env, systemPrompt, run);
      var outcome := Iterate(env, systemPrompt, run);
      if outcome.Continue? && outcome.run.calls != [] {
        ToolLoopKeeps(env, systemPrompt, outcome.run, iterations - 1);
        if iterations > 1 {
          IterateKeeps(env, systemPrompt, outcome.run);
        }
      }
    }
  }

  lemma StartIsKept(env: Env, systemPrompt: string, history: seq<Message>)
    requires forall m | m in history :: Bare(m)
    ensures Kept(env, systemPrompt, history, Continue(StartRun(history)))
  {
  }

  lemma InvokeKeeps(env: Env, systemPrompt: string, history: seq<Message>)
    requires forall m | m in history :: Bare(m)
    ensures var outcome := InvokeLLM(env, systemPrompt, StartRun(history));
      && Kept(env, systemPrompt, history, outcome)
      && !outcome.Crash?
      && outcome.run.added == [] && outcome.run.executed == []
      && |outcome.run.sent| == (if env.hasClient then 1 else 0)
      && (outcome.Continue? ==> env.hasClient)
  {
    var run := StartRun(history);
    StartIsKept(env, systemPrompt, history);
    assert history + [] == history;
    FirstRequestIsMatched(env, systemPrompt, history);
    if env.hasClient {
      ConverseKeeps(env, systemPrompt, run, FirstRequest(env, systemPrompt, history), "");
    }
  }

  // ---------------------------------------------------------------- which runs crash

  /** The n-th stream is opened and ends without an error. */
  predicate Completes(env: Env, n: nat) {
    env.llm(n).Chunks? && forall c | c in env.llm(n).chunks :: !c.Error?
  }

  /** The stage that reads the n-th stream takes in what it carries. */
  lemma ReadAt(env: Env, n: nat)
    requires env.llm(n).Chunks?
    ensures var turn := Read(env.llm(n).chunks); turn.calls == RequestedAt(env, n) && (turn.error.None? <==> Completes(env, n))
  {
    ReadIsHeard(env.llm(n).chunks);
    CompleteIffHeard(env.llm(n).chunks);
  }

  lemma CompleteIffHeard(chunks: seq<Chunk>)
    ensures BeforeError(chunks) == chunks <==> forall c | c in chunks :: !c.Error?
  {
    var heard := BeforeError(chunks);
    if |heard| < |chunks| {
      assert chunks[|heard|] in chunks;
    }
  }

  /** The n-th stream ends without an error and asks for calls. */
  predicate AsksForCalls(env: Env, n: nat) {
    Completes(env, n) && RequestedAt(env, n) != []
  }

  /** One of the calls of the n-th stream is to a registered tool and has an input that decodes to null. */
  predicate Fatal(env: Env, n: nat) {
    AsksForCalls(env, n) && !Harmless(env, RequestedAt(env, n), |Requested(env, n)|)
  }

  predicate AskThrough(env: Env, from: nat, to: nat) {
    forall k | from <= k < to :: AsksForCalls(env, k)
  }

  /** Some stream numbered `from` or later, but before `to`, is fatal, and those before it ask for calls. */
  predicate FatalWithin(env: Env, from: nat, to: nat) {
    exists n | from <= n < to :: Fatal(env, n) && AskThrough(env, from, n)
  }

  /** The tool loop comes to a call whose arguments panic. */
  predicate MeetsNullInput(env: Env, setup: Setup) {
    setup.Ready? && env.hasClient && env.hasExecutor && FatalWithin(env, 0, MaxIter(env))
  }

  lemma FatalFirst(env: Env, n: nat, to: nat)
    requires AsksForCalls(env, n) && n < to
    ensures FatalWithin(env, n, to) <==> Fatal(env, n) || FatalWithin(env, n + 1, to)
  {
    if Fatal(env, n) {
      FatalNow(env, n, to);
    } else if FatalWithin(env, n, to) {
      NotYetFatal(env, n, to);
    } else if FatalWithin(env, n + 1, to) {
      FatalLater(env, n, to);
    }
  }

  lemma FatalNow(env: Env, n: nat, to: nat)
    requires Fatal(env, n) && n < to
    ensures FatalWithin(env, n, to)
  {
    assert AskThrough(env, n, n);
  }

  lemma NotYetFatal(env: Env, n: nat, to: nat)
    requires AsksForCalls(env, n) && !Fatal(env, n) && FatalWithin(env, n, to)
    ensures FatalWithin(env, n + 1, to)
  {
    var k :| n <= k < to && Fatal(env, k) && AskThrough(env, n, k);
    assert k != n;
    FatalAt(env, n + 1, to, k);
  }

  lemma FatalAt(env: Env, from: nat, to: nat, k: nat)
    requires from <= k < to && Fatal(env, k) && from > 0 && AskThrough(env, from - 1, k)
    ensures FatalWithin(env, from, to)
  {
    assert AskThrough(env, from, k);
  }

  lemma FatalLater(env: Env, n: nat, to: nat)
    requires AsksForCalls(env, n) && FatalWithin(env, n + 1, to)
    ensures FatalWithin(env, n, to)
  {
    var k :| n + 1 <= k < to && Fatal(env, k) && AskThrough(env, n + 1, k);
    AskOneMore(env, n, k);
  }

  lemma AskOneMore(env: Env, n: nat, k: nat)
    requires AsksForCalls(env, n) && n < k
    ensures AskThrough(env, n, k) <==> AskThrough(env, n + 1, k)
  {
  }

  lemma NotFatalLater(env: Env, n: nat, to: nat)
    requires !AsksForCalls(env, n)
    ensures !FatalWithin(env, n, to)
  {
    forall k | n < k < to ensures !AskThrough(env, n, k) {
    }
  }

  /** How the run stands before a round: it is about to execute the calls of its last stream. */
  predicate AtRound(env: Env, run: Run, n: nat) {
    && |run.sent| == n + 1 && AsksForCalls(env, n)
    && run.calls == RequestedAt(env, n) && |run.executed| == |Requested(env, n)|
  }

  /** The outcome of a round that took up the calls of the n-th stream. */
  predicate RoundLeaves(env: Env, outcome: Outcome, n: nat) {
    && (outcome.Crash? <==> Fatal(env, n))
    && (!Fatal(env, n) ==> (outcome.Continue? && outcome.run.calls != [] <==> AsksForCalls(env, n + 1)))
    && (!Fatal(env, n) && AsksForCalls(env, n + 1) ==> AtRound(env, outcome.run, n + 1))
  }

  lemma RoundGoesOn(env: Env, systemPrompt: string, run: Run, n: nat)
    requires env.hasClient && AtRound(env, run, n)
    ensures RoundLeaves(env, Iterate(env, systemPrompt, run), n)
  {
    assert Fatal(env, n) <==> RunTools(env, run).Crash?;
    if !Fatal(env, n) {
      RoundGoesThrough(env, systemPrompt, run, n);
    }
  }

  lemma RoundGoesThrough(env: Env, systemPrompt: string, run: Run, n: nat)
    requires env.hasClient && AtRound(env, run, n) && RunTools(env, run).Continue?
    ensures var outcome := Iterate(env, systemPrompt, run);
      && !outcome.Crash?
      && (outcome.Continue? && outcome.run.calls != [] <==> AsksForCalls(env, n + 1))
      && (AsksForCalls(env, n + 1) ==> AtRound(env, outcome.run, n + 1))
  {
    var ran := RunTools(env, run).run;
    AllRequested(env, run, n);
    RoundIsConverse(env, systemPrompt, run);
    NextRound(env, ran, n + 1, WithSystem(systemPrompt, ran.history + ran.added));
  }

  lemma AllRequested(env: Env, run: Run, n: nat)
    requires AtRound(env, run, n) && RunTools(env, run).Continue?
    ensures var ran := RunTools(env, run).run;
      ran.sent == run.sent && ran.calls == [] && |ran.executed| == |Requested(env, n + 1)|
  {
    AllExecuted(env, run);
  }

  lemma NextRound(env: Env, run: Run, n: nat, request: seq<Message>)
    requires |run.sent| == n && run.calls == [] && |run.executed| == |Requested(env, n)|
    ensures var outcome := Converse(env, run, request, " in tool loop");
      && !outcome.Crash?
      && (outcome.Continue? && outcome.run.calls != [] <==> AsksForCalls(env, n))
      && (AsksForCalls(env, n) ==> AtRound(env, outcome.run, n))
  {
    NextStream(env, run, n, request);
    AtNextRound(env, Converse(env, run, request, " in tool loop"), n);
  }

  /** A run that has read the n-th stream is before the next round exactly if that stream asks for calls. */
  lemma AtNextRound(env: Env, outcome: Outcome, n: nat)
    requires |outcome.run.sent| == n + 1 && |outcome.run.executed| == |Requested(env, n)|
    requires (outcome.Continue? <==> Completes(env, n)) && (outcome.Continue? ==> outcome.run.calls == RequestedAt(env, n))
    ensures outcome.Continue? && outcome.run.calls != [] <==> AsksForCalls(env, n)
    ensures AsksForCalls(env, n) ==> AtRound(env, outcome.run, n)
  {
  }

  /** A round that does not panic ends in a stream. */
  lemma RoundIsConverse(env: Env, systemPrompt: string, run: Run)
    requires env.hasClient && RunTools(env, run).Continue?
    ensures var ran := RunTools(env, run).run;
      Iterate(env, systemPrompt, run) == Converse(env, ran, WithSystem(systemPrompt, ran.history + ran.added), " in tool loop")
  {
  }

  /** How the run stands after opening the n-th stream. */
  lemma NextStream(env: Env, run: Run, n: nat, request: seq<Message>)
    requires |run.sent| == n && run.calls == []
    ensures var outcome := Converse(env, run, request, " in tool loop");
      && |outcome.run.sent| == n + 1 && outcome.run.executed == run.executed && !outcome.Crash?
      && (outcome.Continue? <==> Completes(env, n))
      && (outcome.Continue? ==> outcome.run.calls == RequestedAt(env, n))
  {
    if env.llm(n).Chunks? {
      ReadAt(env, n);
    }
  }

  /** The loop crashes exactly if it comes to a fatal stream within its iterations. */
  lemma {:induction false} ToolLoopCrashesIff(env: Env, systemPrompt: string, run: Run, n: nat, iterations: nat)
    requires env.hasClient && AtRound(env, run, n)
    ensures ToolLoop(env, systemPrompt, run, iterations).Crash? <==> FatalWithin(env, n, n + iterations)
    decreases iterations, 0
  {
    if iterations == 0 {
    } else {
      var outcome := Iterate(env, systemPrompt, run);
      RoundGoesOn(env, systemPrompt, run, n);
      AfterRound(env, systemPrompt, outcome, n, iterations - 1);
      LoopUnfolds(env, systemPrompt, run, outcome, iterations);
    }
  }

  lemma LoopUnfolds(env: Env, systemPrompt: string, run: Run, outcome: Outcome, iterations: nat)
    requires iterations > 0 && outcome == Iterate(env, systemPrompt, run)
    ensures ToolLoop(env, systemPrompt, run, iterations) ==
      if !outcome.Continue? || outcome.run.calls == [] then outcome
      else ToolLoop(env, systemPrompt, outcome.run, iterations - 1)
  {
  }

  /** What the loop makes of the outcome of its n-th round. */
  lemma {:induction false} AfterRound(env: Env, systemPrompt: string, outcome: Outcome, n: nat, iterations: nat)
    requires env.hasClient && AsksForCalls(env, n)
    requires RoundLeaves(env, outcome, n)
    ensures
      var end := if !outcome.Continue? || outcome.run.calls == [] then outcome
                 else ToolLoop(env, systemPrompt, outcome.run, iterations);
      end.Crash? <==> FatalWithin(env, n, n + 1 + iterations)
    decreases iterations, 1
  {
    var goesOn := outcome.Continue? && outcome.run.calls != [];
    if goesOn {
      ToolLoopCrashesIff(env, systemPrompt, outcome.run, n + 1, iterations);
    }
    CrashNowOrLater(env, n, iterations, outcome.Crash?, goesOn, ToolLoop(env, systemPrompt, outcome.run, iterations).Crash?);
  }

  /** The loop crashes in its n-th round, or goes on and crashes later. */
  lemma CrashNowOrLater(env: Env, n: nat, iterations: nat, crash: bool, goesOn: bool, later: bool)
    requires AsksForCalls(env, n) && (crash <==> Fatal(env, n))
    requires !crash ==> (goesOn <==> AsksForCalls(env, n + 1))
    requires !crash && goesOn ==> (later <==> FatalWithin(env, n + 1, n + 1 + iterations))
    ensures crash || (goesOn && later) <==> FatalWithin(env, n, n + 1 + iterations)
  {
    FatalFirst(env, n, n + 1 + iterations);
    if !crash && !goesOn {
      NotFatalLater(env, n + 1, n + 1 + iterations);
    }
  }

  // ---------------------------------------------------------------- guarantees of a run

  /** A run of the pipeline whose messages from the database and the user carry no tool blocks. */
  predicate BareSetup(setup: Setup) {
    setup.Ready? ==> forall m | m in setup.history :: Bare(m)
  }

  function PromptOf(setup: Setup): string {
    if setup.Ready? then setup.systemPrompt else ""
  }

  predicate IsDone(end: Run) {
    end.output != [] && end.output[|end.output| - 1].DoneOut?
  }

  /** How the stages of a run ended, and what the pipeline then adds to the output. */
  lemma RunEnds(env: Env, setup: Setup) returns (outcome: Outcome, last: seq<Output>)
    requires BareSetup(setup)
    ensures Execute(env, setup) == outcome.run.(output := outcome.run.output + last)
    ensures outcome.Crash? ==> last == []
    ensures outcome.Abort? ==> |last| == 1 && last[0].ErrorOut?
    ensures outcome.Continue? ==> last == [DoneOut]
    ensures Kept(env, PromptOf(setup), outcome.run.history, outcome)
    ensures outcome.Crash? <==> MeetsNullInput(env, setup)
    ensures setup.Ready? ==> outcome.run.history == setup.history
    ensures |outcome.run.sent| <= 1 + MaxIter(env)
    ensures |outcome.run.sent| > 0 <==> setup.Ready? && env.hasClient
    ensures |outcome.run.sent| > 1 <==> setup.Ready? && SendsAgain(env)
    ensures outcome.Continue? && outcome.run.calls != [] && env.hasExecutor ==> |outcome.run.sent| == 1 + MaxIter(env)
  {
    match setup {
      case SetupFails(stage, error) =>
        outcome, last := Abort(StartRun([]), error), [StageFailed(stage, error)];
      case Ready(systemPrompt, history) =>
        InvokeKeeps(env, systemPrompt, history);
        outcome := InvokeLLM(env, systemPrompt, StartRun(history));
        if env.llm(0).Chunks? {
          ReadAt(env, 0);
        }
        if outcome.Continue? {
          outcome := ToolsEnd(env, systemPrompt, outcome.run);
          last := if outcome.Abort? then [StageFailed("tool_executor", outcome.error)]
                  else if outcome.Crash? then [] else [DoneOut];
        } else {
          last := [StageFailed("llm_invoker", outcome.error)];
          if env.hasClient {
            NotFatalLater(env, 0, MaxIter(env));
          }
        }
        assert outcome.run.output + [] == outcome.run.output;
    }
  }

  lemma DoneIsLast(run: Run, last: seq<Output>, end: Run)
    requires end == run.(output := run.output + last)
    requires (forall o | o in run.output :: !Terminal(o)) && |last| <= 1
    ensures IsDone(end) <==> last == [DoneOut]
  {
    if last == [] {
      assert end.output == run.output;
      assert end.output != [] ==> end.output[|end.output| - 1] in run.output;
    } else {
      assert end.output[|end.output| - 1] == last[0];
    }
  }

  /** A run is done exactly if its stages all went through. */
  lemma DoneIffContinues(env: Env, setup: Setup) returns (outcome: Outcome)
    requires BareSetup(setup)
    ensures IsDone(Execute(env, setup)) <==> outcome.Continue?
    ensures outcome.Continue? ==> Execute(env, setup) == outcome.run.(output := outcome.run.output + [DoneOut])
    ensures Kept(env, PromptOf(setup), outcome.run.history, outcome)
    ensures outcome.Continue? && outcome.run.calls != [] && env.hasExecutor ==> |outcome.run.sent| == 1 + MaxIter(env)
  {
    var last;
    outcome, last := RunEnds(env, setup);
    DoneIsLast(outcome.run, last, Execute(env, setup));
  }

  /** A second stream is opened when the first one asks for calls and none of them panics. */
  predicate SendsAgain(env: Env) {
    env.hasClient && env.hasExecutor && AsksForCalls(env, 0) && !Fatal(env, 0)
  }

  lemma ToolsEnd(env: Env, systemPrompt: string, run: Run) returns (outcome: Outcome)
    requires Kept(env, systemPrompt, run.history, Continue(run)) && env.hasClient
    requires |run.sent| == 1 && run.added == [] && run.executed == []
    requires Completes(env, 0) && run.calls == RequestedAt(env, 0)
    ensures outcome == ExecuteTools(env, systemPrompt, run)
    ensures Kept(env, systemPrompt, run.history, outcome)
    ensures outcome.Crash? <==> env.hasExecutor && FatalWithin(env, 0, MaxIter(env))
    ensures 1 <= |outcome.run.sent| <= 1 + MaxIter(env)
    ensures |outcome.run.sent| > 1 <==> SendsAgain(env)
    ensures outcome.Continue? && outcome.run.calls != [] && env.hasExecutor ==> |outcome.run.sent| == 1 + MaxIter(env)
  {
    outcome := ExecuteTools(env, systemPrompt, run);
    if run.calls == [] {
      NotFatalLater(env, 0, MaxIter(env));
    } else if env.hasExecutor {
      ToolLoopKeeps(env, systemPrompt, run, MaxIter(env));
      ToolLoopCrashesIff(env, systemPrompt, run, 0, MaxIter(env));
      RoundGoesOn(env, systemPrompt, run, 0);
      IterateKeeps(env, systemPrompt, run);
    }
  }

  /** Compaction rewrites the first request. */
  predicate Compacts(env: Env, systemPrompt: string, history: seq<Message>) {
    var messages := WithSystem(systemPrompt, history);
    && |messages| > 5
    && env.shouldCompact(EstimateTokens(messages))
    && env.summarize(messages[1..|messages| - 4]).Some?
  }

  /** The i-th loaded message is in the first request: compaction keeps the first message and the last four. */
  predicate InFirstRequest(env: Env, systemPrompt: string, history: seq<Message>, i: nat) {
    Compacts(env, systemPrompt, history) ==> i + 4 >= |history| || (i == 0 && systemPrompt == "")
  }

  /** A message loaded with the role "tool" is in the first request, or a second one repeats the whole history. */
  predicate SendsStray(env: Env, setup: Setup) {
    && setup.Ready?
    && env.hasClient
    && exists i | 0 <= i < |setup.history| ::
         Stray(setup.history[i]) && (InFirstRequest(env, setup.systemPrompt, setup.history, i) || SendsAgain(env))
  }

  lemma KeptIsInRequest(env: Env, systemPrompt: string, history: seq<Message>, i: nat)
    requires i < |history| && InFirstRequest(env, systemPrompt, history, i)
    ensures history[i] in FirstRequest(env, systemPrompt, history)
  {
    var messages, request := WithSystem(systemPrompt, history), FirstRequest(env, systemPrompt, history);
    var at := |messages| - |history| + i;
    assert messages[at] == history[i];
    if Compacts(env, systemPrompt, history) {
      assert request[if at == 0 then 0 else at + 6 - |messages|] == messages[at];
    } else {
      assert request == messages;
    }
  }

  lemma RequestIsKept(env: Env, systemPrompt: string, history: seq<Message>, k: nat) returns (i: nat)
    requires k < |FirstRequest(env, systemPrompt, history)| && Stray(FirstRequest(env, systemPrompt, history)[k])
    ensures i < |history| && InFirstRequest(env, systemPrompt, history, i)
    ensures FirstRequest(env, systemPrompt, history)[k] == history[i]
  {
    var messages, request := WithSystem(systemPrompt, history), FirstRequest(env, systemPrompt, history);
    if Compacts(env, systemPrompt, history) {
      assert request[1].role == "user";
      var at := if k == 0 then 0 else k + |messages| - 6;
      assert request[k] == messages[at];
      i := at - (|messages| - |history|);
    } else {
      assert request == messages;
      i := k - (|messages| - |history|);
    }
  }

  lemma FirstRequestStrays(env: Env, systemPrompt: string, history: seq<Message>)
    ensures NoStray(FirstRequest(env, systemPrompt, history)) <==>
      forall i | 0 <= i < |history| && InFirstRequest(env, systemPrompt, history, i) :: !Stray(history[i])
  {
    var request := FirstRequest(env, systemPrompt, history);
    forall i | 0 <= i < |history| && InFirstRequest(env, systemPrompt, history, i) ensures history[i] in request {
      KeptIsInRequest(env, systemPrompt, history, i);
    }
    if !NoStray(request) {
      var k :| 0 <= k < |request| && Stray(request[k]);
      var i := RequestIsKept(env, systemPrompt, history, k);
    }
  }

  /**
    In every run every request matches each call with its result. All requests are fully paired if
    and only if no message loaded with the role "tool" is sent; no other stray tool message exists.
  */
  lemma EveryRequestIsPairedIff(env: Env, setup: Setup)
    requires BareSetup(setup)
    ensures var end := Execute(env, setup);
      && (forall r | r in end.sent :: Matched(r))
      && ((forall r | r in end.sent :: Paired(r)) <==> !SendsStray(env, setup))
  {
    var outcome, last := RunEnds(env, setup);
    SentArePairedIff(env, PromptOf(setup), outcome.run);
    if setup.Ready? {
      FirstRequestStrays(env, setup.systemPrompt, setup.history);
    }
  }

  lemma SentArePairedIff(env: Env, systemPrompt: string, run: Run)
    requires RequestsSound(env, systemPrompt, run)
    ensures forall r | r in run.sent :: Matched(r)
    ensures (forall r | r in run.sent :: Paired(r)) <==>
      && (|run.sent| > 0 ==> NoStray(FirstRequest(env, systemPrompt, run.history)))
      && (|run.sent| > 1 ==> NoStray(run.history))
  {
    var sent := run.sent;
    assert forall k | 0 <= k < |sent| :: sent[k] in sent;
    if |sent| > 0 {
      assert Paired(sent[0]) <==> NoStray(Loaded(env, systemPrompt, run.history, 0));
    }
    if |sent| > 1 {
      assert Paired(sent[1]) <==> NoStray(Loaded(env, systemPrompt, run.history, 1));
    }
  }

  /** What the session persister stores: messages of the user and the assistant, without tool blocks. */
  predicate Stored(m: Message) {
    Bare(m) && (m.role == "user" || m.role == "assistant")
  }

  /** A setup as the prompt builder makes it: stored messages, and the incoming one last. */
  predicate BuiltFor(setup: Setup, incoming: Message) {
    && setup.Ready? && Bare(incoming)
    && setup.history != [] && setup.history[|setup.history| - 1] == incoming
    && forall m | m in setup.history[..|setup.history| - 1] :: Stored(m)
  }

  lemma BuiltIsBare(setup: Setup, incoming: Message)
    requires BuiltFor(setup, incoming)
    ensures BareSetup(setup)
    ensures forall i | 0 <= i < |setup.history| - 1 :: Stored(setup.history[i])
  {
    var before := setup.history[..|setup.history| - 1];
    assert setup.history == before + [incoming];
    forall i | 0 <= i < |before| ensures Stored(setup.history[i]) {
      assert before[i] in before;
    }
  }

  /** As the prompt builder works, a stray message is sent exactly if it is the incoming one: that is never compacted away. */
  lemma BuiltSendsStrayIff(env: Env, setup: Setup, incoming: Message)
    requires BuiltFor(setup, incoming)
    ensures SendsStray(env, setup) <==> env.hasClient && incoming.role == "tool"
  {
    BuiltIsBare(setup, incoming);
    var last := |setup.history| - 1;
    assert InFirstRequest(env, setup.systemPrompt, setup.history, last);
    assert Stray(setup.history[last]) <==> incoming.role == "tool";
  }

  /** In every run of a setup as the prompt builder makes it, all requests are paired unless the incoming message has the role "tool". */
  lemma BuiltRequestsArePairedIff(env: Env, setup: Setup, incoming: Message)
    requires BuiltFor(setup, incoming)
    ensures (forall r | r in Execute(env, setup).sent :: Paired(r)) <==> !(env.hasClient && incoming.role == "tool")
  {
    BuiltIsBare(setup, incoming);
    BuiltSendsStrayIff(env, setup, incoming);
    EveryRequestIsPairedIff(env, setup);
  }

  /** Unless the run crashes its final transcript is matched, and paired if and only if the history is. */
  lemma TranscriptIsPaired(env: Env, setup: Setup)
    requires BareSetup(setup) && !MeetsNullInput(env, setup)
    ensures var end := Execute(env, setup);
      Matched(end.history + end.added) && (Paired(end.history + end.added) <==> NoStray(end.history))
  {
    var outcome, last := RunEnds(env, setup);
    BareIsMatched(outcome.run.history);
    MatchedConcat(outcome.run.history, outcome.run.added);
    NoStrayConcat(outcome.run.history, outcome.run.added);
  }

  /** A client's message with the role "tool" goes to the LLM as it is, answering nothing. */
  lemma StrayToolMessageIsSent(env: Env, content: string)
    requires env.hasClient
    ensures var message := PlainMessage("tool", content);
      var sent := Execute(env, Ready("", [message])).sent; |sent| > 0 && sent[0] == [message] && !Paired(sent[0])
  {
    var history := [PlainMessage("tool", content)];
    var outcome, last := RunEnds(env, Ready("", history));
    assert history[0] in history && Stray(history[0]);
    assert WithSystem("", history + []) == history;
    FirstIsSentFirst(env, Ready("", history));
  }

  /** What holds before the loop and is kept by every round holds after it. */
  lemma {:induction false} LoopKeeps(env: Env, systemPrompt: string, run: Run, iterations: nat, holds: Outcome -> bool)
    requires holds(Continue(run))
    requires forall r :: holds(Continue(r)) ==> holds(Iterate(env, systemPrompt, r))
    ensures holds(ToolLoop(env, systemPrompt, run, iterations))
    decreases iterations
  {
    if iterations == 0 {
    } else {
      var outcome := Iterate(env, systemPrompt, run);
      assert holds(Continue(run)) && holds(outcome);
      if outcome.Continue? && outcome.run.calls != [] {
        LoopKeeps(env, systemPrompt, outcome.run, iterations - 1, holds);
      }
    }
  }

  /** The first request of a run is the one the LLM stage builds. */
  lemma FirstIsSentFirst(env: Env, setup: Setup)
    requires setup.Ready? && env.hasClient
    ensures var sent := Execute(env, setup).sent;
      |sent| > 0 && sent[0] == FirstRequest(env, setup.systemPrompt, setup.history)
  {
    var run := StartRun(setup.history);
    assert setup.history + [] == setup.history;
    var invoked := InvokeLLM(env, setup.systemPrompt, run);
    assert invoked.run.sent == [FirstRequest(env, setup.systemPrompt, setup.history)];
    if invoked.Continue? && invoked.run.calls != [] {
      LoopKeepsSent(env, setup.systemPrompt, invoked.run, MaxIter(env));
    }
  }

  lemma IterateKeepsSent(env: Env, systemPrompt: string, run: Run)
    ensures run.sent <= Iterate(env, systemPrompt, run).run.sent
  {
  }

  lemma LoopKeepsSent(env: Env, systemPrompt: string, run: Run, iterations: nat)
    ensures run.sent <= ToolLoop(env, systemPrompt, run, iterations).run.sent
  {
    var holds := (outcome: Outcome) => run.sent <= outcome.run.sent;
    forall r | holds(Continue(r)) ensures holds(Iterate(env, systemPrompt, r)) {
      IterateKeepsSent(env, systemPrompt, r);
    }
    LoopKeeps(env, systemPrompt, run, iterations, holds);
  }

  /** The output is text and tool results followed by one terminal chunk, the last. */
  predicate EndsProperly(output: seq<Output>) {
    output != [] && forall i | 0 <= i < |output| :: Terminal(output[i]) <==> i == |output| - 1
  }

  lemma ProperIffTerminal(output: seq<Output>, last: seq<Output>)
    requires (forall o | o in output :: !Terminal(o)) && |last| <= 1 && (forall o | o in last :: Terminal(o))
    ensures EndsProperly(output + last) <==> last != []
    ensures (forall o | o in output + last :: !Terminal(o)) <==> last == []
  {
    var all := output + last;
    if last == [] {
      assert all == output;
      assert all != [] ==> all[|all| - 1] in output;
    } else {
      assert all[|output|] == last[0] && last[0] in last && last[0] in all;
      forall i | 0 <= i < |output| ensures !Terminal(all[i]) {
        assert all[i] == output[i] && output[i] in output;
      }
    }
  }

  /**
    A run's output ends in exactly one terminal chunk if and only if the tool loop comes to no call of
    a registered tool with an input that decodes to null; otherwise there is no terminal chunk at all.
  */
  lemma OneTerminalChunkIff(env: Env, setup: Setup)
    requires BareSetup(setup)
    ensures var output := Execute(env, setup).output;
      && (EndsProperly(output) <==> !MeetsNullInput(env, setup))
      && (MeetsNullInput(env, setup) <==> forall o | o in output :: !Terminal(o))
  {
    var outcome, last := RunEnds(env, setup);
    ProperIffTerminal(outcome.run.output, last);
  }

  lemma ReadTwo(text: string, call: ToolCall)
    ensures Read([Text(text, ""), ToolUse(Some(call)), Chunk.Done]) == Turn([text], [call], None)
  {
    var chunks := [Text(text, ""), ToolUse(Some(call)), Chunk.Done];
    ReadOneMore(chunks, 0);
    ReadOneMore(chunks, 1);
    ReadOneMore(chunks, 2);
    assert chunks[..0] == [] && chunks[..3] == chunks;
  }

  lemma NoneExecutable(env: Env, call: ToolCall, done: nat)
    requires Panics(env, done, call)
    ensures Executable(env, [call], done) == 0 && !Harmless(env, [call], done)
  {
    assert [call][..0] == [];
    assert Panics(env, done + 0, [call][0]);
  }

  lemma NullInputStopsLoop(env: Env, systemPrompt: string, run: Run, call: ToolCall, iterations: nat)
    requires run.calls == [call] && Panics(env, |run.executed|, call) && iterations > 0
    ensures ToolLoop(env, systemPrompt, run, iterations).Crash?
    ensures ToolLoop(env, systemPrompt, run, iterations).run.output == run.output
  {
    NoneExecutable(env, call, |run.executed|);
    assert run.calls[..0] == [];
    assert run.output + ResultChunks([]) == run.output;
  }

  /** The input `null` for a registered tool ends the process: the output is what was streamed before it. */
  lemma NullInputCrashes(env: Env, systemPrompt: string, history: seq<Message>, text: string, call: ToolCall)
    requires env.hasClient && env.hasExecutor && env.registered(0, call.name) && env.decode(call.input) == Null
    requires env.llm(0) == Chunks([Text(text, ""), ToolUse(Some(call)), Chunk.Done])
    ensures Execute(env, Ready(systemPrompt, history)).output == [TextOut(text)]
  {
    ReadTwo(text, call);
    var invoked := InvokeLLM(env, systemPrompt, StartRun(history));
    assert invoked.Continue? && invoked.run.calls == [call] && invoked.run.output == [TextOut(text)];
    NullInputStopsLoop(env, systemPrompt, invoked.run, call, MaxIter(env));
  }

  /** On a done run the streamed text is the text of the appended messages followed by the final answer. */
  lemma StreamedTextIsTranscript(env: Env, setup: Setup)
    requires BareSetup(setup) && IsDone(Execute(env, setup))
    ensures var end := Execute(env, setup); TextOf(end.output) == ContentsOf(end.added) + end.content
  {
    var outcome := DoneIffContinues(env, setup);
    TerminalCarriesNothing(outcome.run.output, [DoneOut]);
  }

  /** The agent's id, and besides it the fields of the input, or the whole input if it is no object. */
  predicate CarriesInput(env: Env, call: ToolCall, arguments: map<string, string>) {
    && "_agent_id" in arguments && arguments["_agent_id"] == env.agentID
    && match env.decode(call.input)
       case Object(fields) => arguments - {"_agent_id"} == fields - {"_agent_id"}
       case Malformed => arguments - {"_agent_id"} == map["raw" := call.input]
       case Null => false
  }

  /** `output` says what the tool returned: its error if there is one, otherwise its output. */
  predicate Reports(result: ToolReturn, output: string) {
    match result
    case ToolFailed(error) => output == "Error: " + error
    case ToolReturned(text, error) => (error == "" ==> output == text) && (error != "" ==> output == "Error: " + error)
  }

  /** `output` is what the run's k-th call must put out: its tool, run with the agent's id and the input, reports it. */
  ghost predicate Answered(env: Env, k: nat, call: ToolCall, output: string) {
    if env.registered(k, call.name)
    then exists arguments :: CarriesInput(env, call, arguments) && Reports(env.tool(k, call.name, arguments), output)
    else output == "Error: tool not found: " + call.name
  }

  lemma OutputAnswers(env: Env, k: nat, call: ToolCall)
    requires !Panics(env, k, call)
    ensures Answered(env, k, call, OutputOf(env, k, call))
  {
    if env.registered(k, call.name) {
      var arguments := Arguments(env, call).value;
      match env.decode(call.input) {
        case Object(fields) => assert arguments - {"_agent_id"} == fields - {"_agent_id"};
        case Malformed => assert arguments - {"_agent_id"} == map["raw" := call.input];
      }
      assert CarriesInput(env, call, arguments) && Reports(env.tool(k, call.name, arguments), OutputOf(env, k, call));
    }
  }

  /** No other arguments carry the input, so the call decides what it puts out. */
  lemma OneAnswer(env: Env, k: nat, call: ToolCall, output: string, other: string)
    requires Answered(env, k, call, output) && Answered(env, k, call, other)
    ensures output == other
  {
    if env.registered(k, call.name) {
      var a :| CarriesInput(env, call, a) && Reports(env.tool(k, call.name, a), output);
      var b :| CarriesInput(env, call, b) && Reports(env.tool(k, call.name, b), other);
      SameButOne(a, b, "_agent_id");
    }
  }

  lemma SameButOne(a: map<string, string>, b: map<string, string>, key: string)
    requires key in a && key in b && a[key] == b[key] && a - {key} == b - {key}
    ensures a == b
  {
    forall x ensures x in a <==> x in b
      ensures x in a && x in b ==> a[x] == b[x]
    {
      assert x in a - {key} <==> x in b - {key};
      assert x in a - {key} ==> (a - {key})[x] == (b - {key})[x];
    }
  }

  /** The k-th tool_result chunk is what the k-th executed call must put out. */
  ghost predicate ChunksAreOutputs(env: Env, chunks: seq<string>, executed: seq<ToolCall>) {
    && |chunks| == |executed|
    && forall k | 0 <= k < |executed| :: Answered(env, k, executed[k], chunks[k])
  }

  /** Each result of the transcript answers the executed call at its place with that call's output. */
  ghost predicate ResultsAreOutputs(chunks: seq<string>, results: seq<ToolResult>, executed: seq<ToolCall>) {
    && |results| <= |executed| == |chunks|
    && forall k | 0 <= k < |results| :: results[k] == ToolResult(executed[k].id, chunks[k])
  }

  /** The calls of a question and of what came before it. */
  lemma CallsOneMore(before: seq<Message>, question: Message)
    ensures CallsOf(before + [question]) == CallsOf(before) + question.toolCalls
    ensures ResultsIn(before + [question]) == ResultsIn(before) + question.toolResults
  {
    assert (before + [question])[..|before|] == before;
  }

  lemma CutIsProperPrefix<T>(a: seq<T>, b: seq<T>, n: nat)
    requires n < |b|
    ensures a + b[..n] < a + b && (a + b)[|a + b[..n]|] == b[n]
  {
  }

  lemma CutAccounts(env: Env, systemPrompt: string, run: Run)
    requires Sound(env, systemPrompt, run) && Cut(env, run)
    ensures run.executed < CallsOf(run.added) && Panics(env, |run.executed|, CallsOf(run.added)[|run.executed|])
    ensures ResultsAreOutputs(ResultsOf(run.output), ResultsIn(run.added), run.executed)
  {
    var before, question := run.added[..|run.added| - 1], run.added[|run.added| - 1];
    assert run.added == before + [question];
    var first := CallsOf(before);
    CallsOneMore(before, question);
    CutIsProperPrefix(first, question.toolCalls, Executable(env, question.toolCalls, |first|));
    assert ResultsIn(before) + [] == ResultsIn(before);
    forall k | 0 <= k < |first| ensures Outputs(env, first, 0)[k] == Outputs(env, run.executed, 0)[k] {
      assert run.executed[k] == first[k];
    }
  }

  /** A terminal chunk changes none of the accounts. */
  lemma TerminalCarriesNothing(output: seq<Output>, last: seq<Output>)
    requires |last| <= 1 && (forall o | o in last :: Terminal(o))
    ensures ResultsOf(output + last) == ResultsOf(output) && TextOf(output + last) == TextOf(output)
  {
    if last == [] {
      assert output + last == output;
    } else {
      assert last == [last[0]] && last[0] in last;
      OneMoreOutput(output, last[0]);
      assert ResultsOf(output) + [] == ResultsOf(output) && TextOf(output) + "" == TextOf(output);
    }
  }

  lemma SoundChunks(env: Env, systemPrompt: string, run: Run)
    requires Sound(env, systemPrompt, run)
    ensures ChunksAreOutputs(env, ResultsOf(run.output), run.executed)
  {
    forall k | 0 <= k < |run.executed| ensures Answered(env, k, run.executed[k], ResultsOf(run.output)[k]) {
      assert !Panics(env, 0 + k, run.executed[k]);
      OutputAnswers(env, k, run.executed[k]);
    }
  }

  /**
    In every run the executed calls are the transcript's calls in order, and chunks and transcript
    hold their outputs; after a crash the next call of the transcript is the one that panicked.
  */
  lemma ToolResultsAreStreamed(env: Env, setup: Setup)
    requires BareSetup(setup)
    ensures var end := Execute(env, setup); var calls := CallsOf(end.added);
      && ChunksAreOutputs(env, ResultsOf(end.output), end.executed)
      && ResultsAreOutputs(ResultsOf(end.output), ResultsIn(end.added), end.executed)
      && (!MeetsNullInput(env, setup) ==> end.executed == calls && |ResultsIn(end.added)| == |calls|)
      && (MeetsNullInput(env, setup) ==> end.executed < calls && Panics(env, |end.executed|, calls[|end.executed|]))
  {
    var outcome, last := RunEnds(env, setup);
    TerminalCarriesNothing(outcome.run.output, last);
    SoundChunks(env, PromptOf(setup), outcome.run);
    if outcome.Crash? {
      CutAccounts(env, PromptOf(setup), outcome.run);
    }
  }

  /** A run opens at most one stream more than the iteration limit, which is 10 unless configured (compaction aside). */
  lemma StreamsAreBounded(env: Env, setup: Setup)
    requires BareSetup(setup)
    ensures |Execute(env, setup).sent| <= if env.configuredMaxIter > 0 then 1 + env.configuredMaxIter else 11
  {
    var outcome, last := RunEnds(env, setup);
  }

  /**
    On a done run every call the LLM asked for was executed, in order and once, except those of
    the last stream when the iteration limit (or the lack of an executor) cut the run short.
  */
  lemma NoCallIsLost(env: Env, setup: Setup)
    requires BareSetup(setup) && IsDone(Execute(env, setup))
    ensures var end := Execute(env, setup);
      && Requested(env, |end.sent|) == end.executed + end.calls
      && (end.calls != [] ==>
            !env.hasExecutor || |end.sent| == 1 + if env.configuredMaxIter > 0 then env.configuredMaxIter else 10)
  {
    var outcome := DoneIffContinues(env, setup);
  }

  lemma LastFour(first: seq<Message>, last: seq<Message>)
    requires |last| >= 4
    ensures (first + last)[|first + last| - 4..] == last[|last| - 4..]
  {
  }

  /** Compaction leaves the first message, one summary and the last four, whatever came before. */
  lemma CompactedRequest(env: Env, systemPrompt: string, history: seq<Message>)
    ensures var messages, request := WithSystem(systemPrompt, history), FirstRequest(env, systemPrompt, history);
      if Compacts(env, systemPrompt, history)
      then |request| == 6 < |messages| + 1 && request[0] == messages[0] && request[1].role == "user"
           && request[2..] == messages[|messages| - 4..]
      else request == messages
  {
    if Compacts(env, systemPrompt, history) {
      var messages := WithSystem(systemPrompt, history);
      var summary := env.summarize(messages[1..|messages| - 4]).value;
      var head := [messages[0], PlainMessage("user", "[Previous conversation summary]\n" + summary)];
      assert (head + messages[|messages| - 4..])[2..] == messages[|messages| - 4..];
    }
  }

  /** Compaction never drops the user's message or the three before it, and bounds the request. */
  lemma CompactionKeepsRecent(env: Env, systemPrompt: string, history: seq<Message>)
    requires |history| >= 4
    ensures var request := FirstRequest(env, systemPrompt, history);
      && |request| >= 4 && request[|request| - 4..] == history[|history| - 4..]
      && (systemPrompt != "" ==> request[0] == PlainMessage("system", systemPrompt))
      && (request == WithSystem(systemPrompt, history) || |request| == 6)
  {
    CompactedRequest(env, systemPrompt, history);
    LastFour(if systemPrompt != "" then [PlainMessage("system", systemPrompt)] else [], history);
  }

  // ---------------------------------------------------------------- the whole response as one string

  /** What a caller that collects the channel ends up with: the text, and the error if there is one. */
  datatype Collected = Collected(text: string, error: Option<string>)

  function Collect(output: seq<Output>): Collected {
    if output == [] then Collected("", None)
    else
      var before := Collect(output[..|output| - 1]);
      if before.error.Some? then before
      else
        match output[|output| - 1]
        case TextOut(content) => before.(text := before.text + content)
        case ErrorOut(error) => before.(error := Some("pipeline error: " + error))
        case _ => before
  }

  lemma {:induction false} CollectWithoutError(output: seq<Output>)
    requires forall o | o in output :: !o.ErrorOut?
    ensures Collect(output) == Collected(TextOf(output), None)
  {
    if output == [] {
    } else {
      CollectWithoutError(output[..|output| - 1]);
    }
  }

  lemma {:induction false} CollectStopsAtError(output: seq<Output>, n: nat)
    requires n <= |output| && Collect(output[..n]).error.Some?
    ensures Collect(output) == Collect(output[..n])
  {
    if n < |output| {
      assert output[..|output| - 1][..n] == output[..n];
      CollectStopsAtError(output[..|output| - 1], n);
    } else {
      assert output[..n] == output;
    }
  }

  lemma CollectEnds(output: seq<Output>, last: seq<Output>)
    requires (forall o | o in output :: !Terminal(o)) && |last| <= 1 && (forall o | o in last :: Terminal(o))
    ensures Collect(output + last).text == TextOf(output)
    ensures Collect(output + last).error ==
      if last != [] && last[0].ErrorOut? then Some("pipeline error: " + last[0].error) else None
  {
    forall o | o in output ensures !o.ErrorOut? {
      assert !Terminal(o);
    }
    CollectWithoutError(output);
    if last == [] {
      assert output + last == output;
    } else {
      assert last[0] in last;
      assert (output + last)[..|output + last| - 1] == output;
    }
  }

  lemma PromptReturns(env: Env, systemPrompt: string, outcome: Outcome, last: seq<Output>, end: Run)
    requires Kept(env, systemPrompt, outcome.run.history, outcome)
    requires end == outcome.run.(output := outcome.run.output + last)
    requires outcome.Crash? ==> last == []
    requires outcome.Abort? ==> |last| == 1 && last[0].ErrorOut?
    requires outcome.Continue? ==> last == [DoneOut]
    ensures (Collect(end.output).error.None? <==> IsDone(end)) <==> !outcome.Crash?
    ensures IsDone(end) ==> Collect(end.output).text == ContentsOf(end.added) + end.content
    ensures outcome.Crash? ==> !IsDone(end) && Collect(end.output) == Collected(TextOf(end.output), None)
    ensures Collect(end.output).text == TextOf(end.output)
    ensures FailsWith(end.output, Collect(end.output).error)
  {
    CollectEnds(outcome.run.output, last);
    TerminalCarriesNothing(outcome.run.output, last);
    DoneIsLast(outcome.run, last, end);
    if outcome.Crash? {
      assert end.output == outcome.run.output;
    }
  }

  /** The error of collecting `output` is that of its last chunk, if that is an error. */
  predicate FailsWith(output: seq<Output>, error: Option<string>) {
    match error
    case Some(text) =>
      output != [] && output[|output| - 1].ErrorOut? && text == "pipeline error: " + output[|output| - 1].error
    case None => output == [] || !output[|output| - 1].ErrorOut?
  }

  /**
    Collecting a run reports an error exactly when the run is not done, and otherwise returns exactly
    the transcript's text, if and only if the run does not crash. A crash closes the channel without a
    terminal chunk: what was collected by then carries no error although the run is not done.
  */
  lemma PromptReturnsTranscriptIff(env: Env, setup: Setup)
    requires BareSetup(setup)
    ensures var end := Execute(env, setup);
      && ((Collect(end.output).error.None? <==> IsDone(end)) <==> !MeetsNullInput(env, setup))
      && (IsDone(end) ==> Collect(end.output).text == ContentsOf(end.added) + end.content)
      && (MeetsNullInput(env, setup) ==> !IsDone(end) && Collect(end.output).error.None?)
      && Collect(end.output).text == TextOf(end.output)
      && FailsWith(end.output, Collect(end.output).error)
  {
    var outcome, last := RunEnds(env, setup);
    PromptReturns(env, PromptOf(setup), outcome, last, Execute(env, setup));
  }

  // ---------------------------------------------------------------- the stages themselves

  lemma {:induction false} ReadStopsAtError(chunks: seq<Chunk>, n: nat)
    requires n <= |chunks| && Read(chunks[..n]).error.Some?
    ensures Read(chunks) == Read(chunks[..n])
  {
    if n < |chunks| {
      assert chunks[..|chunks| - 1][..n] == chunks[..n];
      ReadStopsAtError(chunks[..|chunks| - 1], n);
    } else {
      assert chunks[..n] == chunks;
    }
  }

  lemma ReadOneMore(chunks: seq<Chunk>, i: nat)
    requires i < |chunks|
    ensures Read(chunks[..i + 1]) == Hear(Read(chunks[..i]), chunks[i])
  {
    assert chunks[..i + 1][..i] == chunks[..i];
  }

  lemma OneMoreText(texts: seq<string>, text: string)
    ensures Texts(texts + [text]) == Texts(texts) + [TextOut(text)]
    ensures Concat(texts + [text]) == Concat(texts) + text
  {
    assert (texts + [text])[..|texts|] == texts;
  }

  /** How an outcome shows to the caller of a stage. */
  predicate Shows(outcome: Outcome, run: Run, error: Option<string>, panicked: bool) {
    && run == outcome.run
    && error == (if outcome.Abort? then Some(outcome.error) else None)
    && panicked == outcome.Crash?
  }

  /** A round and the loop it is part of: it ends the loop, or the loop goes on from its outcome. */
  lemma LoopStep(env: Env, systemPrompt: string, run: Run, iterations: nat, whole: Outcome,
                 next: Run, error: Option<string>, panicked: bool)
    requires iterations > 0 && ToolLoop(env, systemPrompt, run, iterations) == whole
    requires Shows(Iterate(env, systemPrompt, run), next, error, panicked)
    ensures if error.Some? || panicked || next.calls == [] then Shows(whole, next, error, panicked)
      else ToolLoop(env, systemPrompt, next, iterations - 1) == whole
  {
  }

  /** The run after the i-th is what a round makes of it, and the loop goes on after that round. */
  ghost predicate GoesOn(env: Env, systemPrompt: string, runs: seq<Run>, i: nat)
    requires i + 1 < |runs|
  {
    Shows(Iterate(env, systemPrompt, runs[i]), runs[i + 1], None, false) && runs[i + 1].calls != []
  }

  ghost predicate RoundsGoOn(env: Env, systemPrompt: string, runs: seq<Run>) {
    forall i: nat | i + 1 < |runs| :: GoesOn(env, systemPrompt, runs, i)
  }

  lemma RoundGoesOnToo(env: Env, systemPrompt: string, runs: seq<Run>, next: Run)
    requires runs != [] && RoundsGoOn(env, systemPrompt, runs)
    requires Shows(Iterate(env, systemPrompt, runs[|runs| - 1]), next, None, false) && next.calls != []
    ensures RoundsGoOn(env, systemPrompt, runs + [next])
  {
    var longer := runs + [next];
    forall i: nat | i + 1 < |longer| ensures GoesOn(env, systemPrompt, longer, i) {
      assert longer[i] == runs[i];
      if i + 1 < |runs| {
        assert GoesOn(env, systemPrompt, runs, i) && longer[i + 1] == runs[i + 1];
      }
    }
  }

  /** One step of a loop over any `step`: it stops the loop, or the loop goes on from its outcome. */
  predicate LoopAt(step: Run -> Outcome, loop: (Run, nat) -> Outcome, run: Run, left: nat) {
    loop(run, left) ==
      if left == 0 then Continue(run)
      else if !step(run).Continue? || step(run).run.calls == [] then step(run)
      else loop(step(run).run, left - 1)
  }

  ghost predicate Loops(step: Run -> Outcome, loop: (Run, nat) -> Outcome) {
    forall run, left :: LoopAt(step, loop, run, left)
  }

  predicate StepsOn(step: Run -> Outcome, runs: seq<Run>, i: nat)
    requires i + 1 < |runs|
  {
    Shows(step(runs[i]), runs[i + 1], None, false) && runs[i + 1].calls != []
  }

  /** Such a loop ends from the k-th run on with the step that stops it. */
  lemma {:induction false} LoopStops(step: Run -> Outcome, loop: (Run, nat) -> Outcome, runs: seq<Run>, k: nat, left: nat,
                                     last: Run, error: Option<string>, panicked: bool)
    requires k < |runs| <= k + left && Loops(step, loop) && forall i: nat | i + 1 < |runs| :: StepsOn(step, runs, i)
    requires Shows(step(runs[|runs| - 1]), last, error, panicked)
    requires error.Some? || panicked || last.calls == []
    ensures Shows(loop(runs[k], left), last, error, panicked)
    decreases left
  {
    assert LoopAt(step, loop, runs[k], left);
    if k < |runs| - 1 {
      assert StepsOn(step, runs, k);
      LoopStops(step, loop, runs, k + 1, left - 1, last, error, panicked);
    }
  }

  /** Or it ends because its iterations are used up. */
  lemma {:induction false} LoopRunsOut(step: Run -> Outcome, loop: (Run, nat) -> Outcome, runs: seq<Run>, k: nat, left: nat)
    requires k + left + 1 == |runs| && Loops(step, loop) && forall i: nat | i + 1 < |runs| :: StepsOn(step, runs, i)
    ensures loop(runs[k], left) == Continue(runs[|runs| - 1])
    decreases left
  {
    assert LoopAt(step, loop, runs[k], left);
    if left > 0 {
      assert StepsOn(step, runs, k);
      LoopRunsOut(step, loop, runs, k + 1, left - 1);
    }
  }

  /** The rounds end with one that stops the loop, or with the last iteration. */
  ghost predicate RoundsEnd(env: Env, systemPrompt: string, runs: seq<Run>, iterations: nat,
                            last: Run, error: Option<string>, panicked: bool)
    requires runs != []
  {
    && RoundsGoOn(env, systemPrompt, runs)
    && if |runs| <= iterations
       then Shows(Iterate(env, systemPrompt, runs[|runs| - 1]), last, error, panicked) &&
            (error.Some? || panicked || last.calls == [])
       else |runs| == iterations + 1 && last == runs[iterations] && error == None && !panicked
  }

  function Rounds(env: Env, systemPrompt: string): Run -> Outcome {
    (run: Run) => Iterate(env, systemPrompt, run)
  }

  function Looping(env: Env, systemPrompt: string): (Run, nat) -> Outcome {
    (run: Run, left: nat) => ToolLoop(env, systemPrompt, run, left)
  }

  lemma ToolLoopLoops(env: Env, systemPrompt: string)
    ensures Loops(Rounds(env, systemPrompt), Looping(env, systemPrompt))
  {
    forall run, left ensures LoopAt(Rounds(env, systemPrompt), Looping(env, systemPrompt), run, left) {
      if left > 0 {
        LoopUnfolds(env, systemPrompt, run, Iterate(env, systemPrompt, run), left);
      }
    }
  }

  /** Such rounds are the loop. */
  lemma RoundsAreLoop(env: Env, systemPrompt: string, runs: seq<Run>, iterations: nat,
                      last: Run, error: Option<string>, panicked: bool)
    requires runs != [] && RoundsEnd(env, systemPrompt, runs, iterations, last, error, panicked)
    ensures Shows(ToolLoop(env, systemPrompt, runs[0], iterations), last, error, panicked)
  {
    var step, loop := Rounds(env, systemPrompt), Looping(env, systemPrompt);
    ToolLoopLoops(env, systemPrompt);
    forall i: nat | i + 1 < |runs| ensures StepsOn(step, runs, i) {
      assert GoesOn(env, systemPrompt, runs, i);
    }
    if |runs| <= iterations {
      LoopStops(step, loop, runs, 0, iterations, last, error, panicked);
    } else {
      LoopRunsOut(step, loop, runs, 0, iterations);
    }
  }

  /** The first `i` calls are executed, and their outputs sent and collected. */
  ghost predicate Recorded(sent: seq<Output>, before: seq<ToolCall>, ran: seq<ToolCall>, outputs: seq<string>, i: nat,
                           results: seq<ToolResult>, output: seq<Output>, executed: seq<ToolCall>)
    requires i <= |ran| == |outputs|
  {
    && results == Results(ran, outputs)[..i]
    && output == sent + ResultChunks(outputs)[..i]
    && executed == before + ran[..i]
  }

  lemma RecordedOneMore(sent: seq<Output>, before: seq<ToolCall>, ran: seq<ToolCall>, outputs: seq<string>, i: nat,
                        results: seq<ToolResult>, output: seq<Output>, executed: seq<ToolCall>)
    requires i < |ran| == |outputs| && Recorded(sent, before, ran, outputs, i, results, output, executed)
    ensures Recorded(sent, before, ran, outputs, i + 1, results + [ToolResult(ran[i].id, outputs[i])],
                     output + [ResultOut(outputs[i])], executed + [ran[i]])
  {
  }

  lemma AllRecorded(sent: seq<Output>, before: seq<ToolCall>, ran: seq<ToolCall>, outputs: seq<string>,
                    results: seq<ToolResult>, output: seq<Output>, executed: seq<ToolCall>)
    requires |ran| == |outputs| && Recorded(sent, before, ran, outputs, |ran|, results, output, executed)
    ensures results == Results(ran, outputs) && output == sent + ResultChunks(outputs) && executed == before + ran
  {
    assert ran[..|ran|] == ran && ResultChunks(outputs)[..|ran|] == ResultChunks(outputs);
  }

  /** The outputs of the first `n` calls, one by one. */
  lemma OutputsOfFirst(env: Env, calls: seq<ToolCall>, done: nat, n: nat)
    requires n <= |calls| && Harmless(env, calls[..n], done)
    ensures var outputs := Outputs(env, calls[..n], done);
      forall i | 0 <= i < n :: !Panics(env, done + i, calls[i]) && outputs[i] == OutputOf(env, done + i, calls[i])
  {
    forall i | 0 <= i < n ensures !Panics(env, done + i, calls[i]) {
      assert calls[..n][i] == calls[i];
    }
  }

  /** The outputs of the calls before the first that panics. */
  lemma ExecutableOutputs(env: Env, calls: seq<ToolCall>, done: nat) returns (outputs: seq<string>)
    ensures outputs == Outputs(env, calls[..Executable(env, calls, done)], done)
    ensures forall i | 0 <= i < |outputs| :: !Panics(env, done + i, calls[i]) && outputs[i] == OutputOf(env, done + i, calls[i])
    ensures |outputs| < |calls| ==> Panics(env, done + |outputs|, calls[|outputs|])
    ensures |outputs| == |calls| <==> Harmless(env, calls, done)
    ensures Harmless(env, calls, done) ==> outputs == Outputs(env, calls, done)
  {
    var n := Executable(env, calls, done);
    outputs := Outputs(env, calls[..n], done);
    OutputsOfFirst(env, calls, done, n);
    assert calls[..|calls|] == calls;
  }

  /** The fields of `PipelineRequest` that the LLM and tool stages use, and the record of what they sent and ran. */
  class PipelineRequest {
    ghost var history: seq<Message>
    var messages: seq<Message>
    var toolCalls: seq<ToolCall>
    var assistantContent: string
    var outputCh: seq<Output>
    var sent: seq<seq<Message>>
    var executed: seq<ToolCall>

    ghost predicate Valid()
      reads this
    {
      history <= messages
    }

    ghost function View(): Run
      requires Valid()
      reads this
    {
      Run(history, messages[|history|..], toolCalls, assistantContent, outputCh, sent, executed)
    }

    constructor ()
      ensures Valid() && View() == StartRun([])
    {
      history, messages, toolCalls, assistantContent, outputCh, sent, executed := [], [], [], "", [], [], [];
    }

    /** Lines 512-559 and 681-719: open a stream and forward its chunks until it ends or fails. */
    method StreamFrom(env: Env, request: seq<Message>, where: string) returns (error: Option<string>)
      requires Valid()
      modifies this`toolCalls, this`assistantContent, this`outputCh, this`sent
      ensures Valid()
      ensures
        var outcome := Converse(env, old(View()), request, where);
        View() == outcome.run && error == (if outcome.Abort? then Some(outcome.error) else None)
    {
      var stream := env.llm(|sent|);
      sent := sent + [request];
      if stream.Refused? {
        return Some("LLM stream" + where + ": " + stream.error);
      }
      error := ForwardChunks(stream.chunks, where);
    }

    /** The loop over one stream's chunks. */
    method ForwardChunks(chunks: seq<Chunk>, where: string) returns (error: Option<string>)
      modifies this`toolCalls, this`assistantContent, this`outputCh
      ensures
        var turn := Read(chunks);
        && outputCh == old(outputCh) + Texts(turn.texts)
        && toolCalls == old(toolCalls) + turn.calls
        && assistantContent == (if turn.error.None? then Concat(turn.texts) else old(assistantContent))
        && error == (if turn.error.Some? then Some("LLM error" + where + ": " + turn.error.value) else None)
    {
      var content := "";
      ghost var turn := Turn([], [], None);
      assert Texts(turn.texts) == [];
      for i := 0 to |chunks|
        invariant turn == Read(chunks[..i]) && turn.error.None?
        invariant content == Concat(turn.texts)
        invariant outputCh == old(outputCh) + Texts(turn.texts)
        invariant toolCalls == old(toolCalls) + turn.calls
        invariant assistantContent == old(assistantContent)
      {
        ReadOneMore(chunks, i);
        ghost var before := turn;
        turn := Hear(turn, chunks[i]);
        match chunks[i] {
          case Text(text, _) =>
            OneMoreText(before.texts, text);
            content := content + text;
            outputCh := outputCh + [TextOut(text)];
          case ToolUse(Some(call)) =>
            toolCalls := toolCalls + [call];
          case Error(message) =>
            ReadStopsAtError(chunks, i + 1);
            return Some("LLM error" + where + ": " + message);
          case _ =>
        }
      }
      assert chunks[..|chunks|] == chunks;
      assistantContent := content;
      error := None;
    }

    method LLMInvokerProcess(env: Env, systemPrompt: string) returns (error: Option<string>)
      requires Valid()
      modifies this`toolCalls, this`assistantContent, this`outputCh, this`sent
      ensures Valid()
      ensures
        var outcome := InvokeLLM(env, systemPrompt, old(View()));
        View() == outcome.run && error == (if outcome.Abort? then Some(outcome.error) else None)
    {
      if !env.hasClient {
        return Some("no LLM provider configured");
      }
      assert messages == history + messages[|history|..];
      error := StreamFrom(env, FirstRequest(env, systemPrompt, messages), "");
    }

    /** Lines 591-637: execute the calls one by one, unless one panics; `outputs` is what those before it put out. */
    method ExecuteEach(env: Env, ghost outputs: seq<string>) returns (toolResults: seq<ToolResult>, panicked: bool)
      requires |outputs| <= |toolCalls|
      requires forall i | 0 <= i < |outputs| ::
        !Panics(env, |executed| + i, toolCalls[i]) && outputs[i] == OutputOf(env, |executed| + i, toolCalls[i])
      requires |outputs| < |toolCalls| ==> Panics(env, |executed| + |outputs|, toolCalls[|outputs|])
      modifies this`outputCh, this`executed
      ensures outputCh == old(outputCh) + ResultChunks(outputs)
      ensures executed == old(executed) + toolCalls[..|outputs|]
      ensures panicked == (|outputs| < |toolCalls|)
      ensures !panicked ==> toolResults == Results(toolCalls, outputs)
    {
      ghost var ran := toolCalls[..|outputs|];
      toolResults, panicked := [], false;
      for i := 0 to |toolCalls|
        invariant i <= |outputs| && !panicked && |executed| == |old(executed)| + i
        invariant Recorded(old(outputCh), old(executed), ran, outputs, i, toolResults, outputCh, executed)
      {
        var output;
        output, panicked := Invoke(env, |executed|, toolCalls[i]);
        if panicked {
          AllRecorded(old(outputCh), old(executed), ran, outputs, toolResults, outputCh, executed);
          return;
        }
        RecordedOneMore(old(outputCh), old(executed), ran, outputs, i, toolResults, outputCh, executed);
        outputCh := outputCh + [ResultOut(output)];
        executed := executed + [toolCalls[i]];
        toolResults := toolResults + [ToolResult(toolCalls[i].id, output)];
      }
      AllRecorded(old(outputCh), old(executed), ran, outputs, toolResults, outputCh, executed);
      assert ran == toolCalls;
    }

    /** The same for all calls, of which those from the first that panics on are not executed. */
    method ExecuteCalls(env: Env) returns (toolResults: seq<ToolResult>, panicked: bool)
      modifies this`outputCh, this`executed
      ensures
        var ran := toolCalls[..Executable(env, toolCalls, |old(executed)|)];
        outputCh == old(outputCh) + ResultChunks(Outputs(env, ran, |old(executed)|)) && executed == old(executed) + ran
      ensures panicked == !Harmless(env, toolCalls, |old(executed)|)
      ensures !panicked ==> toolResults == Results(toolCalls, Outputs(env, toolCalls, |old(executed)|))
    {
      ghost var outputs := ExecutableOutputs(env, toolCalls, |executed|);
      toolResults, panicked := ExecuteEach(env, outputs);
    }

    /** Lines 582-645: one assistant message, one execution per call, one tool message, unless a call panics. */
    method RunToolCalls(env: Env) returns (panicked: bool)
      requires Valid()
      modifies this
      ensures Valid()
      ensures var outcome := RunTools(env, old(View())); View() == outcome.run && panicked == outcome.Crash?
      ensures !panicked ==>
        && |messages| == |old(messages)| + 2 && old(messages) <= messages
        && messages[|messages| - 2] == Message("assistant", old(assistantContent), old(toolCalls), [])
        && Answers(messages[|messages| - 2], messages[|messages| - 1])
    {
      messages := messages + [Message("assistant", assistantContent, toolCalls, [])];
      assistantContent := "";
      var toolResults;
      toolResults, panicked := ExecuteCalls(env);
      assert messages[|history|..] == old(View()).added + [Question(old(View()))];
      if panicked {
        return;
      }
      messages := messages + [Message("tool", "", [], toolResults)];
      assert toolCalls[..|toolCalls|] == toolCalls;
      toolCalls := [];
      assert messages[|history|..] == old(View()).added
        + [Question(old(View())), Answer(old(toolCalls), Outputs(env, old(toolCalls), |old(executed)|))];
    }

    /** Lines 577-719: one turn of the loop; the next request holds the question and the answer just appended. */
    method Round(env: Env, systemPrompt: string) returns (error: Option<string>, panicked: bool)
      requires Valid()
      modifies this
      ensures Valid()
      ensures Shows(Iterate(env, systemPrompt, old(View())), View(), error, panicked)
      ensures !panicked ==>
        && |messages| == |old(messages)| + 2 && old(messages) <= messages
        && messages[|messages| - 2] == Message("assistant", old(assistantContent), old(toolCalls), [])
        && Answers(messages[|messages| - 2], messages[|messages| - 1])
      ensures sent == old(sent) +
        if panicked || !env.hasClient then []
        else [(if systemPrompt != "" then [PlainMessage("system", systemPrompt)] else []) + messages]
    {
      error := None;
      panicked := RunToolCalls(env);
      if panicked || !env.hasClient {
        return;
      }
      assert messages == history + messages[|history|..];
      error := StreamFrom(env, WithSystem(systemPrompt, messages), " in tool loop");
    }

    /** The loop of lines 577-725; `runs` is the request before each round and, if it runs out, after the last. */
    method ToolRounds(env: Env, systemPrompt: string) returns (error: Option<string>, panicked: bool, ghost runs: seq<Run>)
      requires Valid()
      modifies this
      ensures Valid()
      ensures runs != [] && runs[0] == old(View())
      ensures RoundsEnd(env, systemPrompt, runs, MaxIter(env), View(), error, panicked)
    {
      error, panicked, runs := None, false, [View()];
      for iteration := 0 to MaxIter(env)
        invariant Valid() && error == None && !panicked
        invariant |runs| == iteration + 1 && runs[0] == old(View()) && runs[iteration] == View()
        invariant RoundsGoOn(env, systemPrompt, runs)
      {
        error, panicked := Round(env, systemPrompt);
        if error.Some? || panicked || toolCalls == [] {
          return;
        }
        RoundGoesOnToo(env, systemPrompt, runs, View());
        runs := runs + [View()];
      }
    }

    method ToolExecutorProcess(env: Env, systemPrompt: string) returns (error: Option<string>, panicked: bool)
      requires Valid()
      modifies this
      ensures Valid()
      ensures Shows(ExecuteTools(env, systemPrompt, old(View())), View(), error, panicked)
    {
      if toolCalls == [] || !env.hasExecutor {
        return None, false;
      }
      ghost var runs;
      error, panicked, runs := ToolRounds(env, systemPrompt);
      RoundsAreLoop(env, systemPrompt, runs, MaxIter(env), View(), error, panicked);
    }

    /** The goroutine of `Pipeline.Execute`. */
    method Process(env: Env, setup: Setup)
      requires Valid() && View() == StartRun([])
      modifies this
      ensures Valid()
      ensures View() == Execute(env, setup)
    {
      match setup {
        case SetupFails(stage, error) =>
          outputCh := outputCh + [StageFailed(stage, error)];
        case Ready(systemPrompt, loaded) =>
          history, messages := loaded, loaded;
          assert View() == StartRun(loaded);
          var error := LLMInvokerProcess(env, systemPrompt);
          if error.Some? {
            outputCh := outputCh + [StageFailed("llm_invoker", error.value)];
            return;
          }
          var panicked;
          error, panicked := ToolExecutorProcess(env, systemPrompt);
          if panicked {
            return;
          }
          if error.Some? {
            outputCh := outputCh + [StageFailed("tool_executor", error.value)];
            return;
          }
          outputCh := outputCh + [DoneOut];
      }
    }
  }

  /** Lines 594-628: look the tool up, decode its input, run it. */
  method Invoke(env: Env, k: nat, call: ToolCall) returns (output: string, panicked: bool)
    ensures panicked == Panics(env, k, call)
    ensures !panicked ==> output == OutputOf(env, k, call)
  {
    output, panicked := "", false;
    if !env.registered(k, call.name) {
      output := "Error: tool not found: " + call.name;
    } else {
      var decoded := env.decode(call.input);
      if decoded.Malformed? {
        decoded := Object(map["raw" := call.input]);
      }
      if decoded.Null? {
        return "", true;
      }
      var result := env.tool(k, call.name, decoded.fields["_agent_id" := env.agentID]);
      if result.ToolFailed? {
        output := "Error: " + result.error;
      } else {
        output := result.output;
        if result.error != "" {
          output := "Error: " + result.error;
        }
      }
    }
  }

  /** Lines 182-191: collect the text of a run, stopping at an error chunk. */
  method CollectPrompt(output: seq<Output>) returns (collected: Collected)
    ensures collected == Collect(output)
  {
    collected := Collected("", None);
    for i := 0 to |output|
      invariant collected == Collect(output[..i]) && collected.error.None?
    {
      assert output[..i + 1][..i] == output[..i];
      match output[i] {
        case TextOut(content) => collected := collected.(text := collected.text + content);
        case ErrorOut(error) =>
          CollectStopsAtError(output, i + 1);
          return collected.(error := Some("pipeline error: " + error));
        case _ =>
      }
    }
    assert output[..|output|] == output;
  }
}
