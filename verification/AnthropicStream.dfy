/**
  A run of the pipeline on the stream of the Anthropic provider, `internal/burrow/llm/providers/anthropic.go`,
  when the provider reports an error in the middle of it.
*/
module AnthropicStream {
  import opened Llm
  import Anthropic
  import Pipeline
  import Requests

  /** Nothing after the first error is heard. */
  lemma HeardUpTo(before: seq<Chunk>, message: string, rest: seq<Chunk>)
    requires forall c | c in before :: !c.Error?
    ensures var chunks := before + [Error(message)] + rest; BeforeError(chunks) == before && |before| < |chunks|
  {
    var chunks := before + [Error(message)] + rest;
    var heard := BeforeError(chunks);
    assert chunks[|before|] == Error(message);
    assert forall i | 0 <= i < |before| :: before[i] in before && chunks[i] == before[i];
    assert forall i | 0 <= i < |heard| :: heard[i] in heard && chunks[i] == heard[i];
  }

  lemma {:induction false} NoErrorChunks(d: Anthropic.Decoder, events: seq<Anthropic.Event>)
    requires forall e | e in events :: !e.ErrorEvent?
    ensures forall c | c in Anthropic.Decode(d, events).chunks :: !c.Error?
  {
    if events == [] {
    } else {
      NoErrorChunks(d, events[..|events| - 1]);
      assert events[|events| - 1] in events;
    }
  }

  /** The chunks of a stream in which the first error event comes after `before`. */
  lemma DecodeAtError(before: seq<Anthropic.Event>, data: string, rest: seq<Anthropic.Event>) returns (after: seq<Chunk>)
    ensures Anthropic.Decode(Anthropic.FRESH, before + [Anthropic.ErrorEvent(data)] + rest).chunks
         == Anthropic.Decode(Anthropic.FRESH, before).chunks + [Error(data)] + after
  {
    var d := Anthropic.FRESH;
    var error := [Anthropic.ErrorEvent(data)];
    Anthropic.DecodeResumes(d, before, error);
    Anthropic.DecodeOne(Anthropic.Decode(d, before).decoder, error[0]);
    Anthropic.DecodeResumes(d, before + error, rest);
    after := Anthropic.Decode(Anthropic.Decode(d, before + error).decoder, rest).chunks;
  }

  /**
    An error event in the first stream fails the run: the client gets the text that came before it and, as
    the last chunk, the error with the provider's data; no call of that stream is executed.
  */
  lemma ErrorEventFailsRun(env: Pipeline.Env, systemPrompt: string, history: seq<Message>,
                           before: seq<Anthropic.Event>, data: string, rest: seq<Anthropic.Event>)
    requires env.hasClient && forall e | e in before :: !e.ErrorEvent?
    requires env.llm(0) ==
      Pipeline.Chunks(Anthropic.Decode(Anthropic.FRESH, before + [Anthropic.ErrorEvent(data)] + rest).chunks)
    ensures var end := Pipeline.Execute(env, Pipeline.Ready(systemPrompt, history));
      && Pipeline.TextOf(end.output) == Anthropic.TextOf(before)
      && Requests.Fails(end.output, "pipeline stage llm_invoker failed: LLM error: " + data)
      && end.executed == []
  {
    var chunks := Anthropic.Decode(Anthropic.FRESH, before).chunks;
    var after := DecodeAtError(before, data, rest);
    NoErrorChunks(Anthropic.FRESH, before);
    HeardUpTo(chunks, data, after);
    Anthropic.TextIsForwarded(Anthropic.FRESH, before);
    var setup := Pipeline.Ready(systemPrompt, history);
    Pipeline.ReadIsHeard(chunks + [Error(data)] + after);
    var invoked := Pipeline.InvokeLLM(env, systemPrompt, Pipeline.StartRun(history));
    assert invoked.Abort? && |invoked.run.sent| == 1;
    Requests.EveryTextIsStreamed(env, setup);
    Requests.FailureNamesStream(env, setup);
    assert "" + TextIn(chunks) == TextIn(chunks);
    Blamed(env, data);
  }

  lemma Blamed(env: Pipeline.Env, data: string)
    requires env.llm(0).Chunks? && var chunks, heard := env.llm(0).chunks, BeforeError(env.llm(0).chunks);
      |heard| < |chunks| && chunks[|heard|] == Error(data)
    ensures !Pipeline.Completes(env, 0) && Requests.Blame(env, 0) == "pipeline stage llm_invoker failed: LLM error: " + data
  {
    assert "pipeline stage " + "llm_invoker" + " failed: " == "pipeline stage llm_invoker failed: ";
    assert "LLM error" + "" + ": " + data == "LLM error: " + data;
    assert "pipeline stage llm_invoker failed: " + ("LLM error: " + data) == "pipeline stage llm_invoker failed: LLM error: " + data;
  }
}
