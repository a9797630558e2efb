/**
  The streaming goroutine of the OpenAI provider, `internal/burrow/llm/providers/openai.go`: the events
  of the SSE parser go through the accumulator, and what does not decode is skipped.
*/
module OpenAIStream {
  import opened Llm
  import Accumulator
  import Pipeline
  import Sse

  const DONE := "[DONE]"

  /**
    `chunks` is a possible output for `events`, with `calls` accumulated so far; `decode` is what the JSON
    decoder makes of the data of an event.
  */
  ghost predicate Forwards(decode: string -> Accumulator.Payload, calls: Accumulator.Calls,
                           events: seq<Sse.Event>, chunks: seq<Chunk>)
    decreases |events|, 1
  {
    if events == [] then chunks == []
    else if events[0].data == DONE then chunks == [Chunk.Done]
    else exists n :: ForwardsAt(decode, calls, events, chunks, n)
  }

  /** The first event accounts for the first `n` chunks. */
  ghost predicate ForwardsAt(decode: string -> Accumulator.Payload, calls: Accumulator.Calls,
                             events: seq<Sse.Event>, chunks: seq<Chunk>, n: int)
    requires events != []
    decreases |events|, 0
  {
    && 0 <= n <= |chunks|
    && Accumulator.Emits(calls, decode(events[0].data), chunks[..n])
    && Forwards(decode, Accumulator.Next(calls, decode(events[0].data)), events[1..], chunks[n..])
  }

  lemma Rejoin(chunks: seq<Chunk>, n: nat)
    requires n <= |chunks|
    ensures chunks == chunks[..n] + chunks[n..]
  {
  }

  /** Where the chunks of the first event end. */
  lemma ForwardsSplit(decode: string -> Accumulator.Payload, calls: Accumulator.Calls,
                      events: seq<Sse.Event>, chunks: seq<Chunk>) returns (n: nat)
    requires events != [] && events[0].data != DONE && Forwards(decode, calls, events, chunks)
    ensures n <= |chunks| && chunks == chunks[..n] + chunks[n..]
    ensures Accumulator.Emits(calls, decode(events[0].data), chunks[..n])
    ensures Forwards(decode, Accumulator.Next(calls, decode(events[0].data)), events[1..], chunks[n..])
  {
    var k :| ForwardsAt(decode, calls, events, chunks, k);
    n := k;
    Rejoin(chunks, n);
  }

  /** The loop over the parser's events. */
  method Forward(decode: string -> Accumulator.Payload, events: seq<Sse.Event>) returns (chunks: seq<Chunk>)
    ensures Forwards(decode, map[], events, chunks)
  {
    var accumulator := new Accumulator.OpenAIStreamAccumulator();
    chunks := ForwardFrom(decode, accumulator, events);
  }

  method ForwardFrom(decode: string -> Accumulator.Payload, accumulator: Accumulator.OpenAIStreamAccumulator,
                     events: seq<Sse.Event>) returns (chunks: seq<Chunk>)
    modifies accumulator
    ensures Forwards(decode, old(accumulator.toolCalls), events, chunks)
    decreases |events|
  {
    if events == [] {
      return [];
    }
    if events[0].data == DONE {
      return [Chunk.Done];
    }
    var emitted, failed := accumulator.ParseChunk(decode(events[0].data));
    var rest := ForwardFrom(decode, accumulator, events[1..]);
    chunks := emitted + rest;
    assert chunks[..|emitted|] == emitted && chunks[|emitted|..] == rest;
    assert ForwardsAt(decode, old(accumulator.toolCalls), events, chunks, |emitted|);
  }

  lemma {:induction false} UndecodableEndIsSkipped(decode: string -> Accumulator.Payload, calls: Accumulator.Calls,
                                                   events: seq<Sse.Event>, last: Sse.Event, chunks: seq<Chunk>)
    requires decode(last.data).Malformed? && last.data != DONE
    ensures Forwards(decode, calls, events + [last], chunks) <==> Forwards(decode, calls, events, chunks)
    decreases |events|
  {
    var longer := events + [last];
    if events == [] {
      assert longer[1..] == [] && chunks[..0] == [] && chunks[0..] == chunks;
      assert ForwardsAt(decode, calls, longer, chunks, 0) <==> chunks == [];
    } else {
      var next := Accumulator.Next(calls, decode(events[0].data));
      assert longer[0] == events[0] && longer[1..] == events[1..] + [last];
      forall n ensures ForwardsAt(decode, calls, longer, chunks, n) <==> ForwardsAt(decode, calls, events, chunks, n) {
        if 0 <= n <= |chunks| {
          UndecodableEndIsSkipped(decode, next, events[1..], last, chunks[n..]);
        }
      }
    }
  }

  /**
    A connection that breaks gives exactly the chunks of one that ends in good order: the error event of
    the parser does not decode and is skipped.
  */
  lemma BrokenConnectionIsSilent(decode: string -> Accumulator.Payload, text: string, message: string, chunks: seq<Chunk>)
    requires decode(message).Malformed? && message != DONE
    ensures Forwards(decode, map[], Sse.Events(text, Sse.ReadError(message)), chunks)
       <==> Forwards(decode, map[], Sse.Events(text, Sse.EndOfFile), chunks)
  {
    var events := Sse.Events(text, Sse.EndOfFile);
    assert events + [] == events;
    assert Sse.Events(text, Sse.ReadError(message)) == events + [Sse.Event("error", message, "")];
    UndecodableEndIsSkipped(decode, map[], events, Sse.Event("error", message, ""), chunks);
  }

  // ---------------------------------------------------------------- the accounts of a whole stream

  /** What the accumulator gets to see: the data up to the end marker. */
  function Payloads(decode: string -> Accumulator.Payload, events: seq<Sse.Event>): seq<Accumulator.Payload> {
    if events == [] then []
    else if events[0].data == DONE then [Accumulator.DoneMarker]
    else [decode(events[0].data)] + Payloads(decode, events[1..])
  }

  lemma ProducesOneMore(payloads: seq<Accumulator.Payload>, p: Accumulator.Payload, before: seq<Chunk>, chunks: seq<Chunk>)
    requires Accumulator.Produces(payloads, before) && Accumulator.Emits(Accumulator.After(payloads), p, chunks)
    ensures Accumulator.Produces(payloads + [p], before + chunks)
    ensures Accumulator.After(payloads + [p]) == Accumulator.Next(Accumulator.After(payloads), p)
  {
    var all := before + chunks;
    assert (payloads + [p])[..|payloads|] == payloads;
    assert all[..|before|] == before && all[|before|..] == chunks;
    assert Accumulator.ProducesAt(payloads + [p], all, |before|);
  }

  lemma Regroup<T>(a: seq<T>, b: seq<T>, c: seq<T>)
    ensures a + b + c == a + (b + c)
  {
  }

  lemma {:induction false} ForwardsProduces(decode: string -> Accumulator.Payload, payloads: seq<Accumulator.Payload>,
                                            before: seq<Chunk>, events: seq<Sse.Event>, chunks: seq<Chunk>)
    requires Accumulator.Produces(payloads, before)
    requires Forwards(decode, Accumulator.After(payloads), events, chunks)
    ensures Accumulator.Produces(payloads + Payloads(decode, events), before + chunks)
    decreases |events|
  {
    if events == [] {
      assert payloads + [] == payloads && before + [] == before;
    } else if events[0].data == DONE {
      ProducesOneMore(payloads, Accumulator.DoneMarker, before, chunks);
    } else {
      var p := decode(events[0].data);
      var n := ForwardsSplit(decode, Accumulator.After(payloads), events, chunks);
      ProducesOneMore(payloads, p, before, chunks[..n]);
      ForwardsProduces(decode, payloads + [p], before + chunks[..n], events[1..], chunks[n..]);
      Regroup(payloads, [p], Payloads(decode, events[1..]));
      Regroup(before, chunks[..n], chunks[n..]);
    }
  }

  lemma ForwardedIsProduced(decode: string -> Accumulator.Payload, events: seq<Sse.Event>, chunks: seq<Chunk>)
    requires Forwards(decode, map[], events, chunks)
    ensures Accumulator.Produces(Payloads(decode, events), chunks)
  {
    ForwardsProduces(decode, [], [], events, chunks);
    assert [] + Payloads(decode, events) == Payloads(decode, events) && [] + chunks == chunks;
  }

  /**
    For every response body: the forwarded calls are those of the finished turns; every call begun is
    forwarded if and only if no fragment is left open at the end, and the arguments forwarded and those
    left open are all the arguments received.
  */
  lemma StreamAccounts(decode: string -> Accumulator.Payload, text: string, end: Sse.ReadEnd, chunks: seq<Chunk>)
    returns (parts: seq<seq<ToolCall>>)
    requires Forwards(decode, map[], Sse.Events(text, end), chunks)
    ensures var payloads := Payloads(decode, Sse.Events(text, end));
      && CallsIn(chunks) == Accumulator.Flatten(parts)
      && Accumulator.EachTurnOnce(parts, Accumulator.Turns(payloads))
      && (|CallsIn(chunks)| == Accumulator.Begun(payloads) <==> Accumulator.OpenDeltas(payloads) == [])
      && Accumulator.InputLength(CallsIn(chunks)) + Accumulator.ArgumentLength(Accumulator.OpenDeltas(payloads))
         == Accumulator.ArgumentLength(Accumulator.AllDeltas(payloads))
  {
    var payloads := Payloads(decode, Sse.Events(text, end));
    ForwardedIsProduced(decode, Sse.Events(text, end), chunks);
    parts := Accumulator.StreamEmitsTurns(payloads, chunks);
    Accumulator.EveryFragmentIsEmittedIff(payloads, chunks);
    Accumulator.ArgumentsAreConserved(payloads, chunks);
  }

  /**
    For every response body: the forwarded text is the text of its payloads in order, and the other chunks
    are one finish, usage or end for each payload that is one; nothing comes after the end marker.
  */
  lemma StreamText(decode: string -> Accumulator.Payload, text: string, end: Sse.ReadEnd, chunks: seq<Chunk>)
    requires Forwards(decode, map[], Sse.Events(text, end), chunks)
    ensures var payloads := Payloads(decode, Sse.Events(text, end));
      && TextIn(chunks) == Accumulator.ContentOf(payloads)
      && Accumulator.Marks(chunks) == Accumulator.MarksOf(payloads)
      && Accumulator.NoEmptyText(chunks)
  {
    ForwardedIsProduced(decode, Sse.Events(text, end), chunks);
    Accumulator.StreamEmitsText(Payloads(decode, Sse.Events(text, end)), chunks);
  }

  /** The events before the first end marker, and whether there is one. */
  lemma {:induction false} PayloadsEndAtMarker(decode: string -> Accumulator.Payload, events: seq<Sse.Event>) returns (n: nat)
    ensures n <= |events| && (forall i | 0 <= i < n :: events[i].data != DONE) && (n < |events| ==> events[n].data == DONE)
    ensures Payloads(decode, events) ==
      seq(n, i requires 0 <= i < n => decode(events[i].data)) + if n < |events| then [Accumulator.DoneMarker] else []
    decreases |events|
  {
    if events == [] || events[0].data == DONE {
      n := 0;
    } else {
      var m := PayloadsEndAtMarker(decode, events[1..]);
      n := m + 1;
    }
  }

  // ---------------------------------------------------------------- no stream reports an error

  predicate NoError(chunks: seq<Chunk>) {
    forall c | c in chunks :: !c.Error?
  }

  lemma EmitsNoError(calls: Accumulator.Calls, p: Accumulator.Payload, chunks: seq<Chunk>)
    requires Accumulator.Emits(calls, p, chunks)
    ensures NoError(chunks)
  {
  }

  lemma NoErrorConcat(a: seq<Chunk>, b: seq<Chunk>)
    requires NoError(a) && NoError(b)
    ensures NoError(a + b)
  {
  }

  lemma {:induction false} ForwardsNoError(decode: string -> Accumulator.Payload, calls: Accumulator.Calls,
                                           events: seq<Sse.Event>, chunks: seq<Chunk>)
    requires Forwards(decode, calls, events, chunks)
    ensures NoError(chunks)
    decreases |events|
  {
    if events == [] || events[0].data == DONE {
    } else {
      var p := decode(events[0].data);
      var n := ForwardsSplit(decode, calls, events, chunks);
      EmitsNoError(calls, p, chunks[..n]);
      ForwardsNoError(decode, Accumulator.Next(calls, p), events[1..], chunks[n..]);
      NoErrorConcat(chunks[..n], chunks[n..]);
    }
  }

  lemma {:induction false} HeardWithoutError(chunks: seq<Chunk>)
    requires NoError(chunks)
    ensures BeforeError(chunks) == chunks
  {
    if chunks == [] {
    } else {
      assert chunks[|chunks| - 1] in chunks;
      HeardWithoutError(chunks[..|chunks| - 1]);
    }
  }

  /** A run whose first stream breaks off before any call was complete is a done run, and the client gets the text that had arrived. */
  lemma BrokenStreamIsDone(env: Pipeline.Env, systemPrompt: string, history: seq<Message>,
                           decode: string -> Accumulator.Payload, text: string, message: string, chunks: seq<Chunk>)
    requires env.hasClient && env.llm(0) == Pipeline.Chunks(chunks)
    requires Forwards(decode, map[], Sse.Events(text, Sse.ReadError(message)), chunks)
    requires CallsIn(chunks) == []
    ensures var end := Pipeline.Execute(env, Pipeline.Ready(systemPrompt, history));
      var content := Accumulator.ContentOf(Payloads(decode, Sse.Events(text, Sse.ReadError(message))));
      Pipeline.IsDone(end) && end.content == content && Pipeline.TextOf(end.output) == content
  {
    StreamText(decode, text, Sse.ReadError(message), chunks);
    ForwardsNoError(decode, map[], Sse.Events(text, Sse.ReadError(message)), chunks);
    HeardWithoutError(chunks);
    Pipeline.ReadIsHeard(chunks);
    var turn := Pipeline.Read(chunks);
    var invoked := Pipeline.InvokeLLM(env, systemPrompt, Pipeline.StartRun(history));
    assert invoked.Continue? && invoked.run.calls == [] && invoked.run.output == Pipeline.Texts(turn.texts);
    Pipeline.TextOfTexts(turn.texts);
    Pipeline.TerminalCarriesNothing(Pipeline.Texts(turn.texts), [Pipeline.DoneOut]);
  }
}
