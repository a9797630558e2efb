/**
  What a run of the agent pipeline sends to the LLM and streams to the client, told from the streams
  alone: `internal/burrow/pipeline.go`, lines 462 to 725.
*/
module Requests {
  import opened Common
  import opened Llm
  import opened Pipeline

  // ---------------------------------------------------------------- what the streams carry

  /** The chunks of the n-th stream up to its first error. */
  function HeardAt(env: Env, n: nat): seq<Chunk> {
    match env.llm(n)
    case Refused(_) => []
    case Chunks(chunks) => BeforeError(chunks)
  }

  /** The text of the first `n` streams. */
  function TextHeard(env: Env, n: nat): string {
    if n == 0 then "" else TextHeard(env, n - 1) + TextIn(HeardAt(env, n - 1))
  }

  function Prompt(systemPrompt: string): seq<Message> {
    if systemPrompt == "" then [] else [PlainMessage("system", systemPrompt)]
  }

  // ---------------------------------------------------------------- every request but the first

  /** Round `k` of the tool loop: what stream k - 1 said and asked for, and the answer to its calls. */
  predicate RoundAt(env: Env, added: seq<Message>, k: nat) {
    && 1 <= k && 2 * k <= |added|
    && added[2 * k - 2] == Message("assistant", TextIn(HeardAt(env, k - 1)), CallsIn(HeardAt(env, k - 1)), [])
    && Answers(added[2 * k - 2], added[2 * k - 1])
  }

  /** The k-th request holds the prompt, the whole history, and all rounds up to the k-th. */
  predicate HoldsRounds(env: Env, systemPrompt: string, run: Run, k: nat) {
    && k < |run.sent| && 2 * k <= |run.added|
    && run.sent[k] == Prompt(systemPrompt) + run.history + run.added[..2 * k]
    && forall j | 1 <= j <= k :: RoundAt(env, run.added, j)
  }

  predicate AllHoldRounds(env: Env, systemPrompt: string, run: Run) {
    forall k | 1 <= k < |run.sent| :: HoldsRounds(env, systemPrompt, run, k)
  }

  /** How the run stands before a round: one request more than rounds, and the last stream's words at hand. */
  predicate InStep(env: Env, systemPrompt: string, run: Run) {
    && run.sent != [] && |run.added| == 2 * (|run.sent| - 1)
    && run.content == TextIn(HeardAt(env, |run.sent| - 1)) && run.calls == CallsIn(HeardAt(env, |run.sent| - 1))
    && AllHoldRounds(env, systemPrompt, run)
    && forall j | 1 <= j < |run.sent| :: RoundAt(env, run.added, j)
  }

  lemma RoundStays(env: Env, added: seq<Message>, more: seq<Message>, k: nat)
    requires RoundAt(env, added, k)
    ensures RoundAt(env, added + more, k)
  {
  }

  /** Appending to the transcript leaves the requests sent before what they were. */
  lemma HoldsStay(env: Env, systemPrompt: string, run: Run, after: Run, more: seq<Message>)
    requires AllHoldRounds(env, systemPrompt, run)
    requires after.sent == run.sent && after.history == run.history && after.added == run.added + more
    ensures AllHoldRounds(env, systemPrompt, after)
  {
    forall k | 1 <= k < |after.sent| ensures HoldsRounds(env, systemPrompt, after, k) {
      assert HoldsRounds(env, systemPrompt, run, k);
      assert after.added[..2 * k] == run.added[..2 * k];
      forall j | 1 <= j <= k ensures RoundAt(env, after.added, j) {
        RoundStays(env, run.added, more, j);
      }
    }
  }

  /** What the tools stage appends in one round. */
  lemma RunToolsAppends(env: Env, run: Run) returns (more: seq<Message>)
    ensures var ran := RunTools(env, run);
      && !ran.Abort? && ran.run.sent == run.sent && ran.run.history == run.history
      && ran.run.added == run.added + more
      && (ran.Continue? ==>
            && ran.run.calls == []
            && |more| == 2 && more[0] == Message("assistant", run.content, run.calls, []) && Answers(more[0], more[1]))
  {
    if RunTools(env, run).Crash? {
      more := [Question(run)];
    } else {
      var outputs := Outputs(env, run.calls, |run.executed|);
      more := [Question(run), Answer(run.calls, outputs)];
      assert ResultIds(more[1].toolResults) == CallIds(run.calls);
    }
  }

  /** What opening and reading a stream leaves. */
  lemma ConverseHears(env: Env, run: Run, request: seq<Message>, at: string)
    requires run.calls == []
    ensures var outcome := Converse(env, run, request, at);
      && !outcome.Crash?
      && outcome.run.sent == run.sent + [request]
      && outcome.run.history == run.history && outcome.run.added == run.added
      && (outcome.Continue? ==>
            outcome.run.content == TextIn(HeardAt(env, |run.sent|)) && outcome.run.calls == CallsIn(HeardAt(env, |run.sent|)))
  {
    if env.llm(|run.sent|).Chunks? {
      ReadIsHeard(env.llm(|run.sent|).chunks);
    }
  }

  /** The request that closes a round holds that round. */
  lemma RequestHoldsRound(env: Env, systemPrompt: string, run: Run, request: seq<Message>, after: Run)
    requires AllHoldRounds(env, systemPrompt, run) && run.sent != [] && |run.added| == 2 * |run.sent|
    requires forall j | 1 <= j <= |run.sent| :: RoundAt(env, run.added, j)
    requires request == Prompt(systemPrompt) + run.history + run.added
    requires after.sent == run.sent + [request] && after.history == run.history && after.added == run.added
    ensures AllHoldRounds(env, systemPrompt, after)
  {
    assert run.added[..2 * |run.sent|] == run.added;
    forall k | 1 <= k < |after.sent| ensures HoldsRounds(env, systemPrompt, after, k) {
      if k < |run.sent| {
        assert HoldsRounds(env, systemPrompt, run, k);
      }
    }
  }

  lemma RoundsAfter(env: Env, run: Run, more: seq<Message>)
    requires run.sent != [] && |run.added| == 2 * (|run.sent| - 1) && |more| == 2
    requires forall j | 1 <= j < |run.sent| :: RoundAt(env, run.added, j)
    requires more[0] == Message("assistant", TextIn(HeardAt(env, |run.sent| - 1)), CallsIn(HeardAt(env, |run.sent| - 1)), [])
    requires Answers(more[0], more[1])
    ensures forall j | 1 <= j <= |run.sent| :: RoundAt(env, run.added + more, j)
  {
    forall j | 1 <= j <= |run.sent| ensures RoundAt(env, run.added + more, j) {
      if j < |run.sent| {
        RoundStays(env, run.added, more, j);
      }
    }
  }

  /** What is known of a round or of the whole loop that started with `history`. */
  predicate StepKept(env: Env, systemPrompt: string, history: seq<Message>, outcome: Outcome) {
    outcome.run.history == history && AllHoldRounds(env, systemPrompt, outcome.run)
  }

  /** Opening the next stream after a round that went through. */
  lemma ConverseInStep(env: Env, systemPrompt: string, run: Run, request: seq<Message>)
    requires AllHoldRounds(env, systemPrompt, run) && run.sent != [] && |run.added| == 2 * |run.sent| && run.calls == []
    requires forall j | 1 <= j <= |run.sent| :: RoundAt(env, run.added, j)
    requires request == Prompt(systemPrompt) + run.history + run.added
    ensures var outcome := Converse(env, run, request, " in tool loop");
      && StepKept(env, systemPrompt, run.history, outcome)
      && (outcome.Continue? ==> InStep(env, systemPrompt, outcome.run))
  {
    ConverseHears(env, run, request, " in tool loop");
    RequestHoldsRound(env, systemPrompt, run, request, Converse(env, run, request, " in tool loop").run);
  }

  lemma RoundKeepsStep(env: Env, systemPrompt: string, run: Run)
    requires env.hasClient && InStep(env, systemPrompt, run)
    ensures var outcome := Iterate(env, systemPrompt, run);
      && StepKept(env, systemPrompt, run.history, outcome)
      && (outcome.Continue? ==> InStep(env, systemPrompt, outcome.run))
  {
    var ran := RunTools(env, run);
    var more := RunToolsAppends(env, run);
    HoldsStay(env, systemPrompt, run, ran.run, more);
    if ran.Continue? {
      var request := WithSystem(systemPrompt, ran.run.history + ran.run.added);
      assert request == Prompt(systemPrompt) + ran.run.history + ran.run.added;
      RoundsAfter(env, run, more);
      RoundIsConverse(env, systemPrompt, run);
      ConverseInStep(env, systemPrompt, ran.run, request);
    }
  }

  /** What holds of a run before a round. */
  predicate StepReady(env: Env, systemPrompt: string, history: seq<Message>, outcome: Outcome) {
    && StepKept(env, systemPrompt, history, outcome)
    && (outcome.Continue? ==> InStep(env, systemPrompt, outcome.run))
  }

  lemma LoopKeepsStep(env: Env, systemPrompt: string, run: Run, iterations: nat)
    requires env.hasClient && InStep(env, systemPrompt, run)
    ensures StepKept(env, systemPrompt, run.history, ToolLoop(env, systemPrompt, run, iterations))
  {
    var holds := (outcome: Outcome) => StepReady(env, systemPrompt, run.history, outcome);
    forall r | holds(Continue(r)) ensures holds(Iterate(env, systemPrompt, r)) {
      RoundKeepsStep(env, systemPrompt, r);
    }
    LoopKeeps(env, systemPrompt, run, iterations, holds);
  }

  /** How a run ends as far as requests and transcript go. */
  lemma EndHolds(env: Env, systemPrompt: string, history: seq<Message>)
    requires env.hasClient
    ensures var end := Execute(env, Ready(systemPrompt, history)); end.history == history && AllHoldRounds(env, systemPrompt, end)
  {
    InvokedInStep(env, systemPrompt, history);
    var invoked := InvokeLLM(env, systemPrompt, StartRun(history));
    var outcome := invoked;
    if invoked.Continue? {
      if invoked.run.calls != [] && env.hasExecutor {
        LoopKeepsStep(env, systemPrompt, invoked.run, MaxIter(env));
      }
      outcome := ExecuteTools(env, systemPrompt, invoked.run);
    }
    assert StepKept(env, systemPrompt, history, outcome);
    var end := Execute(env, Ready(systemPrompt, history));
    assert end.sent == outcome.run.sent && end.added == outcome.run.added && end.history == outcome.run.history;
    assert outcome.run.added + [] == outcome.run.added;
    HoldsStay(env, systemPrompt, outcome.run, end, []);
  }

  lemma InvokedInStep(env: Env, systemPrompt: string, history: seq<Message>)
    requires env.hasClient
    ensures var outcome := InvokeLLM(env, systemPrompt, StartRun(history));
      && outcome.run.history == history && outcome.run.added == [] && |outcome.run.sent| == 1 && !outcome.Crash?
      && (outcome.Continue? ==> InStep(env, systemPrompt, outcome.run))
  {
    ConverseHears(env, StartRun(history), FirstRequest(env, systemPrompt, history + []), "");
  }

  /**
    In every run, done, failed or crashed, the k-th request after the first holds the system prompt, the
    whole history and the first k rounds of the transcript, and the last of these answers the calls of the
    k-th stream.
  */
  lemma LaterRequestsHoldTranscript(env: Env, setup: Setup, k: nat)
    requires 1 <= k < |Execute(env, setup).sent|
    ensures setup.Ready?
    ensures var end, prompt := Execute(env, setup), setup.systemPrompt;
      && 2 * k <= |end.added|
      && end.sent[k] == (if prompt == "" then [] else [PlainMessage("system", prompt)]) + setup.history + end.added[..2 * k]
      && end.added[2 * k - 2] == Message("assistant", TextIn(HeardAt(env, k - 1)), CallsIn(HeardAt(env, k - 1)), [])
      && Answers(end.added[2 * k - 2], end.added[2 * k - 1])
  {
    var end := Execute(env, setup);
    if setup.Ready? && env.hasClient {
      EndHolds(env, setup.systemPrompt, setup.history);
      assert HoldsRounds(env, setup.systemPrompt, end, k);
      assert RoundAt(env, end.added, k);
    }
  }

  // ---------------------------------------------------------------- the first request

  /** All characters of the messages, and the number of strings they are in. */
  function Characters(messages: seq<Message>): nat {
    if messages == [] then 0
    else
      var m := messages[|messages| - 1];
      Characters(messages[..|messages| - 1]) + |m.content| + InputCharacters(m.toolCalls) + ResultCharacters(m.toolResults)
  }

  function InputCharacters(calls: seq<ToolCall>): nat {
    if calls == [] then 0 else InputCharacters(calls[..|calls| - 1]) + |calls[|calls| - 1].input|
  }

  function ResultCharacters(results: seq<ToolResult>): nat {
    if results == [] then 0 else ResultCharacters(results[..|results| - 1]) + |results[|results| - 1].content|
  }

  function Pieces(messages: seq<Message>): nat {
    if messages == [] then 0
    else
      var m := messages[|messages| - 1];
      Pieces(messages[..|messages| - 1]) + 1 + |m.toolCalls| + |m.toolResults|
  }

  lemma {:induction false} CallTokensAreThird(calls: seq<ToolCall>)
    ensures 3 * CallTokens(calls) <= InputCharacters(calls) <= 3 * CallTokens(calls) + 2 * |calls|
  {
    if calls == [] {
    } else {
      CallTokensAreThird(calls[..|calls| - 1]);
    }
  }

  lemma {:induction false} ResultTokensAreThird(results: seq<ToolResult>)
    ensures 3 * ResultTokens(results) <= ResultCharacters(results) <= 3 * ResultTokens(results) + 2 * |results|
  {
    if results == [] {
    } else {
      ResultTokensAreThird(results[..|results| - 1]);
    }
  }

  /** The estimate is a third of all characters, tool inputs and results included, rounded down piece by piece. */
  lemma {:induction false} EstimateIsThird(messages: seq<Message>)
    ensures 3 * EstimateTokens(messages) <= Characters(messages) <= 3 * EstimateTokens(messages) + 2 * Pieces(messages)
  {
    if messages == [] {
    } else {
      var m := messages[|messages| - 1];
      EstimateIsThird(messages[..|messages| - 1]);
      CallTokensAreThird(m.toolCalls);
      ResultTokensAreThird(m.toolResults);
    }
  }

  /**
    The first request of every run holds the prompt and the history, except that `middle` may be replaced by
    the summary made of it: nothing is left out that was not summarized, and the first message and the last
    four never are.
  */
  lemma FirstRequestOmitsOnlySummarized(env: Env, setup: Setup) returns (middle: seq<Message>)
    requires setup.Ready? && env.hasClient
    ensures Execute(env, setup).sent != []
    ensures
      var messages, request := Prompt(setup.systemPrompt) + setup.history, Execute(env, setup).sent[0];
      if middle == [] then request == messages
      else
        && |request| == 6
        && [request[0]] + middle + request[2..] == messages
        && env.summarize(middle).Some?
        && request[1] == PlainMessage("user", "[Previous conversation summary]\n" + env.summarize(middle).value)
    ensures middle == [] <==> !Compacts(env, setup.systemPrompt, setup.history)
  {
    FirstIsSentFirst(env, setup);
    var messages := WithSystem(setup.systemPrompt, setup.history);
    assert messages == Prompt(setup.systemPrompt) + setup.history;
    if Compacts(env, setup.systemPrompt, setup.history) {
      middle := messages[1..|messages| - 4];
      SplitMessages(messages);
    } else {
      middle := [];
    }
  }

  lemma SplitMessages(messages: seq<Message>)
    requires |messages| > 5
    ensures messages == [messages[0]] + messages[1..|messages| - 4] + messages[|messages| - 4..]
  {
  }

  // ---------------------------------------------------------------- the streamed text

  lemma ConverseStreams(env: Env, run: Run, request: seq<Message>, at: string)
    ensures TextOf(Converse(env, run, request, at).run.output)
         == TextOf(run.output) + TextIn(HeardAt(env, |run.sent|))
  {
    match env.llm(|run.sent|) {
      case Refused(_) =>
        assert TextOf(run.output) + "" == TextOf(run.output);
      case Chunks(chunks) =>
        ReadIsHeard(chunks);
        HearingKeepsAccounts(run.output, Read(chunks).texts);
    }
  }

  lemma RunToolsStreamsNoText(env: Env, run: Run)
    ensures TextOf(RunTools(env, run).run.output) == TextOf(run.output)
  {
    var ran := run.calls[..Executable(env, run.calls, |run.executed|)];
    RunningKeepsAccounts(run.output, Outputs(env, ran, |run.executed|));
  }

  /** The text on the output channel is that of the streams opened. */
  predicate Streamed(env: Env, run: Run) {
    TextOf(run.output) == TextHeard(env, |run.sent|)
  }

  lemma ConverseKeepsStreamed(env: Env, run: Run, request: seq<Message>, at: string)
    requires Streamed(env, run)
    ensures Streamed(env, Converse(env, run, request, at).run)
  {
    ConverseStreams(env, run, request, at);
    assert |Converse(env, run, request, at).run.sent| == |run.sent| + 1;
  }

  lemma RoundKeepsStreamed(env: Env, systemPrompt: string, run: Run)
    requires Streamed(env, run)
    ensures Streamed(env, Iterate(env, systemPrompt, run).run)
  {
    RunToolsStreamsNoText(env, run);
    var ran := RunTools(env, run);
    if ran.Continue? && env.hasClient {
      ConverseKeepsStreamed(env, ran.run, WithSystem(systemPrompt, ran.run.history + ran.run.added), " in tool loop");
    }
  }

  lemma LoopKeepsStreamed(env: Env, systemPrompt: string, run: Run, iterations: nat)
    requires Streamed(env, run)
    ensures Streamed(env, ToolLoop(env, systemPrompt, run, iterations).run)
  {
    var holds := (outcome: Outcome) => Streamed(env, outcome.run);
    forall r | holds(Continue(r)) ensures holds(Iterate(env, systemPrompt, r)) {
      RoundKeepsStreamed(env, systemPrompt, r);
    }
    LoopKeeps(env, systemPrompt, run, iterations, holds);
  }

  /** How the stages of any run leave the output, and what the pipeline adds. */
  lemma StreamedUpToLast(env: Env, systemPrompt: string, history: seq<Message>) returns (outcome: Outcome, last: seq<Output>)
    ensures Streamed(env, outcome.run) && |last| <= 1 && forall o | o in last :: Terminal(o)
    ensures var end := Execute(env, Ready(systemPrompt, history));
      end.output == outcome.run.output + last && end.sent == outcome.run.sent
  {
    var invoked := InvokeLLM(env, systemPrompt, StartRun(history));
    if env.hasClient {
      ConverseKeepsStreamed(env, StartRun(history), FirstRequest(env, systemPrompt, history + []), "");
    }
    outcome := invoked;
    if invoked.Continue? {
      if invoked.run.calls != [] && env.hasExecutor {
        LoopKeepsStreamed(env, systemPrompt, invoked.run, MaxIter(env));
      }
      outcome := ExecuteTools(env, systemPrompt, invoked.run);
    }
    var stage := if invoked.Continue? then "tool_executor" else "llm_invoker";
    last := match outcome case Abort(_, error) => [StageFailed(stage, error)] case Crash(_) => [] case Continue(_) => [DoneOut];
    assert outcome.run.output + [] == outcome.run.output;
  }

  /** In every run, done, failed or crashed, the client gets all text of all streams opened, up to the first error of each. */
  lemma EveryTextIsStreamed(env: Env, setup: Setup)
    ensures var end := Execute(env, setup); TextOf(end.output) == TextHeard(env, |end.sent|)
  {
    match setup {
      case SetupFails(stage, error) =>
        TerminalCarriesNothing([], [StageFailed(stage, error)]);
        assert [] + [StageFailed(stage, error)] == [StageFailed(stage, error)];
      case Ready(systemPrompt, history) =>
        var outcome, last := StreamedUpToLast(env, systemPrompt, history);
        TerminalCarriesNothing(outcome.run.output, last);
    }
  }

  // ---------------------------------------------------------------- why a run failed

  /** What the n-th stream, refused or broken off, lets the pipeline report. */
  function Blame(env: Env, n: nat): string
    requires !Completes(env, n)
  {
    var stage := if n == 0 then "llm_invoker" else "tool_executor";
    var where := if n == 0 then "" else " in tool loop";
    "pipeline stage " + stage + " failed: " +
    match env.llm(n)
    case Refused(reason) => "LLM stream" + where + ": " + reason
    case Chunks(chunks) =>
      CompleteIffHeard(chunks);
      "LLM error" + where + ": " + chunks[|BeforeError(chunks)|].content
  }

  predicate NoErrorOut(output: seq<Output>) {
    forall o | o in output :: !o.ErrorOut?
  }

  /** The last stream opened completed exactly if the stages did not fail, and a failure names it. */
  predicate Blamed(env: Env, stage: string, outcome: Outcome) {
    && outcome.run.sent != []
    && NoErrorOut(outcome.run.output)
    && (outcome.Abort? <==> !Completes(env, |outcome.run.sent| - 1))
    && (outcome.Abort? ==> StageFailed(stage, outcome.error) == ErrorOut(Blame(env, |outcome.run.sent| - 1)))
  }

  lemma ConverseBlames(env: Env, run: Run, request: seq<Message>, first: bool)
    requires (first <==> run.sent == []) && NoErrorOut(run.output)
    ensures Blamed(env, if first then "llm_invoker" else "tool_executor",
                   Converse(env, run, request, if first then "" else " in tool loop"))
  {
    var n := |run.sent|;
    if env.llm(n).Chunks? {
      ReadIsHeard(env.llm(n).chunks);
      CompleteIffHeard(env.llm(n).chunks);
    }
  }

  lemma RoundBlames(env: Env, systemPrompt: string, run: Run)
    requires Blamed(env, "tool_executor", Continue(run))
    ensures Blamed(env, "tool_executor", Iterate(env, systemPrompt, run))
  {
    var ran := RunTools(env, run);
    if ran.Continue? && env.hasClient {
      ConverseBlames(env, ran.run, WithSystem(systemPrompt, ran.run.history + ran.run.added), false);
    }
  }

  lemma LoopBlames(env: Env, systemPrompt: string, run: Run, iterations: nat)
    requires Blamed(env, "tool_executor", Continue(run))
    ensures Blamed(env, "tool_executor", ToolLoop(env, systemPrompt, run, iterations))
  {
    var holds := (outcome: Outcome) => Blamed(env, "tool_executor", outcome);
    forall r | holds(Continue(r)) ensures holds(Iterate(env, systemPrompt, r)) {
      RoundBlames(env, systemPrompt, r);
    }
    LoopKeeps(env, systemPrompt, run, iterations, holds);
  }

  /** How the stages of a run with a client end, and under whose name. */
  lemma StagesEnd(env: Env, systemPrompt: string, history: seq<Message>) returns (stage: string, outcome: Outcome)
    requires env.hasClient
    ensures Blamed(env, stage, outcome)
    ensures var end := Execute(env, Ready(systemPrompt, history));
      && end.sent == outcome.run.sent
      && end.output == outcome.run.output + match outcome
                                            case Abort(_, error) => [StageFailed(stage, error)]
                                            case Crash(_) => []
                                            case Continue(_) => [DoneOut]
  {
    ConverseBlames(env, StartRun(history), FirstRequest(env, systemPrompt, history + []), true);
    stage, outcome := "llm_invoker", InvokeLLM(env, systemPrompt, StartRun(history));
    if outcome.Continue? {
      if outcome.run.calls != [] && env.hasExecutor {
        LoopBlames(env, systemPrompt, outcome.run, MaxIter(env));
      }
      stage, outcome := "tool_executor", ExecuteTools(env, systemPrompt, outcome.run);
    }
    assert outcome.run.output + [] == outcome.run.output;
  }

  /** The run's last chunk is an error with this text. */
  predicate Fails(output: seq<Output>, error: string) {
    output != [] && output[|output| - 1] == ErrorOut(error)
  }

  lemma WithoutClient(env: Env, systemPrompt: string, history: seq<Message>)
    requires !env.hasClient
    ensures Execute(env, Ready(systemPrompt, history)).output
         == [ErrorOut("pipeline stage " + "llm_invoker" + " failed: " + "no LLM provider configured")]
  {
    var error := StageFailed("llm_invoker", "no LLM provider configured");
    assert [] + [error] == [error];
  }

  /**
    A run with a client fails if and only if the last stream it opened was refused or broke off with an
    error, and its error chunk says in which stage and why; without a client, or when an earlier stage
    fails, the error chunk is all it puts out.
  */
  lemma FailureNamesStream(env: Env, setup: Setup)
    ensures var end := Execute(env, setup);
      match setup
      case SetupFails(stage, error) => end.output == [ErrorOut("pipeline stage " + stage + " failed: " + error)]
      case Ready(_, _) =>
        if !env.hasClient then
          end.output == [ErrorOut("pipeline stage " + "llm_invoker" + " failed: " + "no LLM provider configured")]
        else
          var n := |end.sent| - 1;
          && n >= 0
          && (Completes(env, n) ==> NoErrorOut(end.output))
          && (!Completes(env, n) ==> Fails(end.output, Blame(env, n)))
  {
    match setup {
      case SetupFails(stage, error) =>
        assert "pipeline stage " + stage + " failed: " + error == StageFailed(stage, error).error;
      case Ready(systemPrompt, history) =>
        if env.hasClient {
          var stage, outcome := StagesEnd(env, systemPrompt, history);
        } else {
          WithoutClient(env, systemPrompt, history);
        }
    }
  }
}
