/**
  The tool-call accumulator for OpenAI-style streams, `OpenAIStreamAccumulator` in
  `internal/burrow/llm/streaming.go`.  A payload is what the JSON decoder makes of one event.
*/
module Accumulator {
  import opened Common
  import opened Llm

  /** A fragment of a tool call; absent strings decode as "". */
  datatype Delta = Delta(index: int, id: string, name: string, arguments: string)

  datatype Payload =
    | DoneMarker
    | Malformed
    | NoChoice(usage: bool)
    | Choice(content: string, deltas: seq<Delta>, finish: string)   // finish == "": none yet

  type Calls = map<int, ToolCall>

  function OneOr(s: string, other: string): string {
    if s != "" then s else other
  }

  /** One fragment: a new index starts a call, non-empty id and name replace, arguments append. */
  function Merge(calls: Calls, d: Delta): Calls {
    var existing := if d.index in calls then calls[d.index] else ToolCall(d.id, d.name, "");
    calls[d.index := ToolCall(OneOr(d.id, existing.id), OneOr(d.name, existing.name), existing.input + d.arguments)]
  }

  function Accumulate(calls: Calls, deltas: seq<Delta>): Calls {
    if deltas == [] then calls else Merge(Accumulate(calls, deltas[..|deltas| - 1]), deltas[|deltas| - 1])
  }

  function Next(calls: Calls, p: Payload): Calls {
    if !p.Choice? then calls
    else if p.finish == "" then Accumulate(calls, p.deltas)
    else map[]
  }

  // ---------------------------------------------------------------- what a chunk emits

  /** `order` lists every index of `calls` once; Go iterates over a map in any such order. */
  ghost predicate Enumerates(order: seq<int>, calls: Calls) {
    multiset(order) == multiset(calls.Keys)
  }

  function Listed(calls: Calls, order: seq<int>): seq<ToolCall>
    requires forall i | 0 <= i < |order| :: order[i] in calls
  {
    seq(|order|, i requires 0 <= i < |order| => calls[order[i]])
  }

  function Uses(calls: seq<ToolCall>): seq<Chunk> {
    seq(|calls|, i requires 0 <= i < |calls| => ToolUse(Some(calls[i])))
  }

  function TextChunks(content: string): seq<Chunk> {
    if content != "" then [Text(content, "")] else []
  }

  /** `chunks` is a possible result of `ParseChunk` in a state with `calls`. */
  ghost predicate Emits(calls: Calls, p: Payload, chunks: seq<Chunk>) {
    match p
    case DoneMarker => chunks == [Done]
    case Malformed => chunks == []
    case NoChoice(usage) => chunks == if usage then [Usage] else []
    case Choice(content, deltas, finish) =>
      if finish == "" then chunks == TextChunks(content)
      else
        var all := Accumulate(calls, deltas);
        exists order :: Enumerates(order, all) && (forall i | 0 <= i < |order| :: order[i] in all) &&
          chunks == TextChunks(content) + Uses(Listed(all, order)) + [Text("", finish)]
  }

  // ---------------------------------------------------------------- one call, fragment by fragment

  function Project(deltas: seq<Delta>, index: int): seq<Delta> {
    if deltas == [] then []
    else
      var before, d := Project(deltas[..|deltas| - 1], index), deltas[|deltas| - 1];
      if d.index == index then before + [d] else before
  }

  function LastId(deltas: seq<Delta>): string {
    if deltas == [] then ""
    else if deltas[|deltas| - 1].id != "" then deltas[|deltas| - 1].id
    else LastId(deltas[..|deltas| - 1])
  }

  function LastName(deltas: seq<Delta>): string {
    if deltas == [] then ""
    else if deltas[|deltas| - 1].name != "" then deltas[|deltas| - 1].name
    else LastName(deltas[..|deltas| - 1])
  }

  function Arguments(deltas: seq<Delta>): string {
    if deltas == [] then "" else Arguments(deltas[..|deltas| - 1]) + deltas[|deltas| - 1].arguments
  }

  /** The call that the fragments of one index spell out. */
  function Summary(deltas: seq<Delta>, index: int): ToolCall {
    var mine := Project(deltas, index);
    ToolCall(LastId(mine), LastName(mine), Arguments(mine))
  }

  lemma SummarySnoc(mine: seq<Delta>, d: Delta)
    ensures LastId(mine + [d]) == OneOr(d.id, LastId(mine))
    ensures LastName(mine + [d]) == OneOr(d.name, LastName(mine))
    ensures Arguments(mine + [d]) == Arguments(mine) + d.arguments
  {
    assert (mine + [d])[..|mine|] == mine;
  }

  function Indices(deltas: seq<Delta>): set<int> {
    set d | d in deltas :: d.index
  }

  lemma {:induction false} AccumulatedIndices(deltas: seq<Delta>)
    ensures Accumulate(map[], deltas).Keys == Indices(deltas)
  {
    if deltas == [] {
    } else {
      var before, d := deltas[..|deltas| - 1], deltas[|deltas| - 1];
      AccumulatedIndices(before);
      assert deltas == before + [d];
    }
  }

  /** Accumulation keeps one call per index: last non-empty id, last non-empty name, all arguments in order. */
  lemma {:induction false} AccumulateIsSummary(deltas: seq<Delta>, index: int)
    ensures index in Accumulate(map[], deltas) <==> Project(deltas, index) != []
    ensures index in Accumulate(map[], deltas) ==> Accumulate(map[], deltas)[index] == Summary(deltas, index)
  {
    if deltas == [] {
    } else {
      var before, d := deltas[..|deltas| - 1], deltas[|deltas| - 1];
      AccumulateIsSummary(before, index);
      if d.index == index {
        SummarySnoc(Project(before, index), d);
      }
    }
  }

  /** It does not matter how the fragments are spread over chunks. */
  lemma {:induction false} AccumulateResumes(calls: Calls, a: seq<Delta>, b: seq<Delta>)
    ensures Accumulate(calls, a + b) == Accumulate(Accumulate(calls, a), b)
  {
    if b == [] {
      assert a + b == a;
    } else {
      assert (a + b)[..|a + b| - 1] == a + b[..|b| - 1];
      AccumulateResumes(calls, a, b[..|b| - 1]);
    }
  }

  /** Nor how the fragments of different calls are interleaved. */
  lemma SameProjectionsSameCalls(a: seq<Delta>, b: seq<Delta>)
    requires forall index :: Project(a, index) == Project(b, index)
    ensures Accumulate(map[], a) == Accumulate(map[], b)
  {
    forall index ensures index in Accumulate(map[], a) <==> index in Accumulate(map[], b)
      ensures index in Accumulate(map[], a) ==> Accumulate(map[], a)[index] == Accumulate(map[], b)[index]
    {
      AccumulateIsSummary(a, index);
      AccumulateIsSummary(b, index);
    }
  }

  // ---------------------------------------------------------------- a whole turn

  /** The fragments since the last finish. */
  function OpenDeltas(payloads: seq<Payload>): seq<Delta> {
    if payloads == [] then []
    else
      var before, p := OpenDeltas(payloads[..|payloads| - 1]), payloads[|payloads| - 1];
      if !p.Choice? then before else if p.finish == "" then before + p.deltas else []
  }

  function After(payloads: seq<Payload>): Calls {
    if payloads == [] then map[] else Next(After(payloads[..|payloads| - 1]), payloads[|payloads| - 1])
  }

  /** The state is a function of the fragments since the last finish: no turn sees anything of the one before. */
  lemma {:induction false} StateIsOpenDeltas(payloads: seq<Payload>)
    ensures After(payloads) == Accumulate(map[], OpenDeltas(payloads))
  {
    if payloads == [] {
    } else {
      var before, p := payloads[..|payloads| - 1], payloads[|payloads| - 1];
      StateIsOpenDeltas(before);
      if p.Choice? && p.finish == "" {
        AccumulateResumes(map[], OpenDeltas(before), p.deltas);
      }
    }
  }

  lemma {:induction false} CallsInUses(calls: seq<ToolCall>)
    ensures CallsIn(Uses(calls)) == calls
  {
    if calls == [] {
    } else {
      var before := calls[..|calls| - 1];
      CallsInUses(before);
      assert Uses(calls)[..|calls| - 1] == Uses(before);
      assert calls == before + [calls[|calls| - 1]];
    }
  }

  function SummaryList(deltas: seq<Delta>, order: seq<int>): seq<ToolCall> {
    seq(|order|, i requires 0 <= i < |order| => Summary(deltas, order[i]))
  }

  /** `calls` has exactly one summary for each index of `deltas`, in the given order. */
  ghost predicate OneSummaryEach(calls: seq<ToolCall>, deltas: seq<Delta>, order: seq<int>) {
    && multiset(order) == multiset(Indices(deltas))
    && calls == SummaryList(deltas, order)
  }

  lemma ListedAreSummaries(deltas: seq<Delta>, order: seq<int>)
    requires Enumerates(order, Accumulate(map[], deltas))
    requires forall i | 0 <= i < |order| :: order[i] in Accumulate(map[], deltas)
    ensures OneSummaryEach(Listed(Accumulate(map[], deltas), order), deltas, order)
  {
    AccumulatedIndices(deltas);
    forall i | 0 <= i < |order| ensures Accumulate(map[], deltas)[order[i]] == Summary(deltas, order[i]) {
      AccumulateIsSummary(deltas, order[i]);
    }
  }

  lemma CallsInFinish(content: string, calls: seq<ToolCall>, finish: string)
    ensures CallsIn(TextChunks(content) + Uses(calls) + [Text("", finish)]) == calls
  {
    CallsInConcat(TextChunks(content) + Uses(calls), [Text("", finish)]);
    CallsInConcat(TextChunks(content), Uses(calls));
    CallsInUses(calls);
  }

  /** The chunk that finishes a turn emits one complete call per index of the turn's fragments. */
  lemma FinishEmitsSummaries(payloads: seq<Payload>, last: Payload, chunks: seq<Chunk>) returns (order: seq<int>)
    requires last.Choice? && last.finish != ""
    requires Emits(After(payloads), last, chunks)
    ensures OneSummaryEach(CallsIn(chunks), OpenDeltas(payloads) + last.deltas, order)
    ensures After(payloads + [last]) == map[]
  {
    StateIsOpenDeltas(payloads);
    AccumulateResumes(map[], OpenDeltas(payloads), last.deltas);
    var all := Accumulate(After(payloads), last.deltas);
    order :| Enumerates(order, all) && (forall i | 0 <= i < |order| :: order[i] in all) &&
      chunks == TextChunks(last.content) + Uses(Listed(all, order)) + [Text("", last.finish)];
    CallsInFinish(last.content, Listed(all, order), last.finish);
    ListedAreSummaries(OpenDeltas(payloads) + last.deltas, order);
    assert (payloads + [last])[..|payloads|] == payloads;
  }

  lemma RemoveFromBoth<T>(init: seq<T>, u: seq<T>, v: seq<T>, x: T)
    requires multiset(init + [x]) == multiset(u + [x] + v)
    ensures multiset(init) == multiset(u + v)
  {
    assert multiset(init) == multiset(init + [x]) - multiset{x};
    assert multiset(u + v) == multiset(u + [x] + v) - multiset{x};
  }

  /** Summaries of the same indices, listed in two orders, are the same multiset. */
  lemma {:induction false} SameIndicesSameBag(deltas: seq<Delta>, s: seq<int>, t: seq<int>)
    requires multiset(s) == multiset(t)
    ensures multiset(SummaryList(deltas, s)) == multiset(SummaryList(deltas, t))
  {
    if s == [] {
      assert |multiset(t)| == 0;
    } else {
      var init, x := s[..|s| - 1], s[|s| - 1];
      assert s == init + [x] && x in multiset(t);
      var j :| 0 <= j < |t| && t[j] == x;
      var u, v := t[..j], t[j + 1..];
      assert t == u + [x] + v;
      RemoveFromBoth(init, u, v, x);
      SameIndicesSameBag(deltas, init, u + v);
      SummaryListSplit(deltas, init, x, []);
      SummaryListSplit(deltas, u, x, v);
      assert init + [x] + [] == s && init + [] == init;
    }
  }

  lemma SummaryListConcat(deltas: seq<Delta>, u: seq<int>, v: seq<int>)
    ensures SummaryList(deltas, u + v) == SummaryList(deltas, u) + SummaryList(deltas, v)
  {
  }

  lemma SummaryListInParts(deltas: seq<Delta>, u: seq<int>, x: int, v: seq<int>)
    ensures SummaryList(deltas, u + [x] + v) == SummaryList(deltas, u) + [Summary(deltas, x)] + SummaryList(deltas, v)
  {
    SummaryListConcat(deltas, u + [x], v);
    SummaryListConcat(deltas, u, [x]);
    assert SummaryList(deltas, [x]) == [Summary(deltas, x)];
  }

  lemma BagOfParts(a: seq<ToolCall>, x: ToolCall, b: seq<ToolCall>, whole: seq<ToolCall>, rest: seq<ToolCall>)
    requires whole == a + [x] + b && rest == a + b
    ensures multiset(whole) == multiset(rest) + multiset{x}
  {
  }

  lemma SummaryListSplit(deltas: seq<Delta>, u: seq<int>, x: int, v: seq<int>)
    ensures multiset(SummaryList(deltas, u + [x] + v))
         == multiset(SummaryList(deltas, u + v)) + multiset{Summary(deltas, x)}
  {
    SummaryListInParts(deltas, u, x, v);
    SummaryListConcat(deltas, u, v);
    BagOfParts(SummaryList(deltas, u), Summary(deltas, x), SummaryList(deltas, v),
               SummaryList(deltas, u + [x] + v), SummaryList(deltas, u + v));
  }

  lemma SameProjectionsSameSummaries(a: seq<Delta>, b: seq<Delta>, order: seq<int>)
    requires forall index :: Project(a, index) == Project(b, index)
    ensures Indices(a) == Indices(b) && SummaryList(a, order) == SummaryList(b, order)
  {
    SameProjectionsSameCalls(a, b);
    AccumulatedIndices(a);
    AccumulatedIndices(b);
    forall i | 0 <= i < |order| ensures Summary(a, order[i]) == Summary(b, order[i]) {
      assert Project(a, order[i]) == Project(b, order[i]);
    }
  }

  /**
    Fragmentation and interleaving are invisible: two turns whose fragments agree index by index
    emit the same calls, as a multiset, however the fragments were cut into chunks.
  */
  lemma SameProjectionsSameEmission(p: seq<Payload>, pLast: Payload, pChunks: seq<Chunk>,
                                    q: seq<Payload>, qLast: Payload, qChunks: seq<Chunk>)
    requires pLast.Choice? && pLast.finish != "" && Emits(After(p), pLast, pChunks)
    requires qLast.Choice? && qLast.finish != "" && Emits(After(q), qLast, qChunks)
    requires forall index :: Project(OpenDeltas(p) + pLast.deltas, index) == Project(OpenDeltas(q) + qLast.deltas, index)
    ensures multiset(CallsIn(pChunks)) == multiset(CallsIn(qChunks))
  {
    var s := FinishEmitsSummaries(p, pLast, pChunks);
    var t := FinishEmitsSummaries(q, qLast, qChunks);
    var a, b := OpenDeltas(p) + pLast.deltas, OpenDeltas(q) + qLast.deltas;
    SameProjectionsSameSummaries(a, b, t);
    SameIndicesSameBag(a, s, t);
  }

  // ---------------------------------------------------------------- a whole stream

  /** The fragments of each finished turn. */
  function Turns(payloads: seq<Payload>): seq<seq<Delta>> {
    if payloads == [] then []
    else
      var before, p := payloads[..|payloads| - 1], payloads[|payloads| - 1];
      if p.Choice? && p.finish != "" then Turns(before) + [OpenDeltas(before) + p.deltas] else Turns(before)
  }

  function AllDeltas(payloads: seq<Payload>): seq<Delta> {
    if payloads == [] then []
    else
      var before, p := AllDeltas(payloads[..|payloads| - 1]), payloads[|payloads| - 1];
      if p.Choice? then before + p.deltas else before
  }

  function Flatten<T>(parts: seq<seq<T>>): seq<T> {
    if parts == [] then [] else Flatten(parts[..|parts| - 1]) + parts[|parts| - 1]
  }

  lemma FlattenOneMore<T>(parts: seq<seq<T>>, part: seq<T>)
    ensures Flatten(parts + [part]) == Flatten(parts) + part
  {
    assert (parts + [part])[..|parts|] == parts;
  }

  /** Each fragment belongs to a finished turn or to the one that is open. */
  lemma {:induction false} FragmentsAreInTurns(payloads: seq<Payload>)
    ensures AllDeltas(payloads) == Flatten(Turns(payloads)) + OpenDeltas(payloads)
  {
    if payloads == [] {
    } else {
      var before, p := payloads[..|payloads| - 1], payloads[|payloads| - 1];
      FragmentsAreInTurns(before);
      if p.Choice? {
        FlattenOneMore(Turns(before), OpenDeltas(before) + p.deltas);
        assert Flatten(Turns(before)) + OpenDeltas(before) + p.deltas == Flatten(Turns(before)) + (OpenDeltas(before) + p.deltas);
      }
    }
  }

  /** `chunks` is a possible output for the whole list of payloads. */
  ghost predicate Produces(payloads: seq<Payload>, chunks: seq<Chunk>)
    decreases |payloads|, 1
  {
    if payloads == [] then chunks == [] else exists n :: ProducesAt(payloads, chunks, n)
  }

  /** The last payload accounts for the chunks from the n-th on. */
  ghost predicate ProducesAt(payloads: seq<Payload>, chunks: seq<Chunk>, n: int)
    requires payloads != []
    decreases |payloads|, 0
  {
    && 0 <= n <= |chunks|
    && Produces(payloads[..|payloads| - 1], chunks[..n])
    && Emits(After(payloads[..|payloads| - 1]), payloads[|payloads| - 1], chunks[n..])
  }

  ghost predicate TurnOnce(part: seq<ToolCall>, turn: seq<Delta>) {
    exists order :: OneSummaryEach(part, turn, order)
  }

  /** `parts` are the calls of each finished turn: one complete call per index. */
  ghost predicate EachTurnOnce(parts: seq<seq<ToolCall>>, turns: seq<seq<Delta>>) {
    |parts| == |turns| && forall i | 0 <= i < |parts| :: TurnOnce(parts[i], turns[i])
  }

  lemma UnfinishedHasNoCalls(calls: Calls, p: Payload, chunks: seq<Chunk>)
    requires Emits(calls, p, chunks) && !Finishes(p)
    ensures CallsIn(chunks) == []
  {
    assert |chunks| <= 1 && (chunks != [] ==> chunks[..0] == []);
  }

  predicate Finishes(p: Payload) {
    p.Choice? && p.finish != ""
  }

  /** What one payload emits: the calls of the turn it finishes, or none. */
  lemma PayloadEmits(before: seq<Payload>, p: Payload, chunks: seq<Chunk>)
    requires Emits(After(before), p, chunks)
    ensures if Finishes(p) then TurnOnce(CallsIn(chunks), OpenDeltas(before) + p.deltas) else CallsIn(chunks) == []
  {
    if Finishes(p) {
      var order := FinishEmitsSummaries(before, p, chunks);
    } else {
      UnfinishedHasNoCalls(After(before), p, chunks);
    }
  }

  lemma TurnsOneMore(before: seq<Payload>, p: Payload)
    ensures Turns(before + [p]) == if Finishes(p) then Turns(before) + [OpenDeltas(before) + p.deltas] else Turns(before)
  {
    assert (before + [p])[..|before|] == before;
  }

  lemma EachTurnOneMore(parts: seq<seq<ToolCall>>, turns: seq<seq<Delta>>, part: seq<ToolCall>, turn: seq<Delta>)
    requires EachTurnOnce(parts, turns) && TurnOnce(part, turn)
    ensures EachTurnOnce(parts + [part], turns + [turn])
  {
  }

  /** Where the chunks of the last payload begin. */
  lemma ProducesSplit(payloads: seq<Payload>, chunks: seq<Chunk>) returns (a: seq<Chunk>, b: seq<Chunk>)
    requires payloads != [] && Produces(payloads, chunks)
    ensures chunks == a + b
    ensures Produces(payloads[..|payloads| - 1], a)
    ensures Emits(After(payloads[..|payloads| - 1]), payloads[|payloads| - 1], b)
  {
    var n :| ProducesAt(payloads, chunks, n);
    a, b := chunks[..n], chunks[n..];
  }

  /** The calls of a whole stream are those of its finished turns, in order. */
  lemma {:induction false} StreamEmitsTurns(payloads: seq<Payload>, chunks: seq<Chunk>) returns (parts: seq<seq<ToolCall>>)
    requires Produces(payloads, chunks)
    ensures CallsIn(chunks) == Flatten(parts) && EachTurnOnce(parts, Turns(payloads))
    decreases |payloads|
  {
    if payloads == [] {
      parts := [];
    } else {
      var before, p := payloads[..|payloads| - 1], payloads[|payloads| - 1];
      var a, b := ProducesSplit(payloads, chunks);
      var init := StreamEmitsTurns(before, a);
      assert payloads == before + [p];
      parts := AppendPayload(before, p, init, a, b);
    }
  }

  lemma AppendPayload(before: seq<Payload>, p: Payload, parts: seq<seq<ToolCall>>, a: seq<Chunk>, b: seq<Chunk>)
    returns (longer: seq<seq<ToolCall>>)
    requires CallsIn(a) == Flatten(parts) && EachTurnOnce(parts, Turns(before)) && Emits(After(before), p, b)
    ensures CallsIn(a + b) == Flatten(longer) && EachTurnOnce(longer, Turns(before + [p]))
  {
    CallsInConcat(a, b);
    PayloadEmits(before, p, b);
    TurnsOneMore(before, p);
    if Finishes(p) {
      FlattenOneMore(parts, CallsIn(b));
      EachTurnOneMore(parts, Turns(before), CallsIn(b), OpenDeltas(before) + p.deltas);
      longer := parts + [CallsIn(b)];
    } else {
      longer := parts;
    }
  }

  // ---------------------------------------------------------------- text and marks

  /** The text of all payloads, in order. */
  function ContentOf(payloads: seq<Payload>): string {
    if payloads == [] then ""
    else
      var before, p := ContentOf(payloads[..|payloads| - 1]), payloads[|payloads| - 1];
      if p.Choice? then before + p.content else before
  }

  /** A chunk that carries neither text nor a call: a finish, token usage, the end or an error. */
  predicate IsMark(c: Chunk) {
    !c.ToolUse? && (c.Text? ==> c.finishReason != "")
  }

  function Marks(chunks: seq<Chunk>): seq<Chunk> {
    if chunks == [] then []
    else
      var before, c := Marks(chunks[..|chunks| - 1]), chunks[|chunks| - 1];
      if IsMark(c) then before + [c] else before
  }

  /** What a payload must mark in the output. */
  function MarkOf(p: Payload): seq<Chunk> {
    match p
    case DoneMarker => [Done]
    case NoChoice(true) => [Usage]
    case Choice(_, _, finish) => if finish == "" then [] else [Text("", finish)]
    case _ => []
  }

  function MarksOf(payloads: seq<Payload>): seq<Chunk> {
    if payloads == [] then [] else MarksOf(payloads[..|payloads| - 1]) + MarkOf(payloads[|payloads| - 1])
  }

  /** No chunk is a text chunk without text and without a finish reason. */
  predicate NoEmptyText(chunks: seq<Chunk>) {
    forall c | c in chunks && c.Text? && c.finishReason == "" :: c.content != ""
  }

  lemma {:induction false} MarksConcat(a: seq<Chunk>, b: seq<Chunk>)
    ensures Marks(a + b) == Marks(a) + Marks(b)
  {
    if b == [] {
      assert a + b == a && Marks(a) + [] == Marks(a);
    } else {
      var init, c := b[..|b| - 1], b[|b| - 1];
      assert (a + b)[..|a + b| - 1] == a + init;
      MarksConcat(a, init);
      assert IsMark(c) ==> Marks(a) + Marks(init) + [c] == Marks(a) + (Marks(init) + [c]);
    }
  }

  lemma {:induction false} UsesCarryCallsOnly(calls: seq<ToolCall>)
    ensures TextIn(Uses(calls)) == "" && Marks(Uses(calls)) == []
  {
    if calls == [] {
    } else {
      UsesCarryCallsOnly(calls[..|calls| - 1]);
      assert Uses(calls)[..|calls| - 1] == Uses(calls[..|calls| - 1]);
    }
  }

  lemma OneChunk(c: Chunk)
    ensures TextIn([c]) == (if c.Text? then c.content else "") && Marks([c]) == if IsMark(c) then [c] else []
  {
    assert [c][..0] == [];
  }

  lemma ContentChunks(content: string)
    ensures TextIn(TextChunks(content)) == content && Marks(TextChunks(content)) == []
  {
    OneChunk(Text(content, ""));
  }

  /** What a payload that finishes a turn emits: its text, the calls, and then one finish, the last. */
  lemma FinishAccounts(content: string, calls: seq<ToolCall>, finish: string)
    requires finish != ""
    ensures var chunks := TextChunks(content) + Uses(calls) + [Text("", finish)];
      TextIn(chunks) == content && Marks(chunks) == [Text("", finish)]
  {
    var head := TextChunks(content) + Uses(calls);
    TextInConcat(head, [Text("", finish)]);
    TextInConcat(TextChunks(content), Uses(calls));
    MarksConcat(head, [Text("", finish)]);
    MarksConcat(TextChunks(content), Uses(calls));
    ContentChunks(content);
    UsesCarryCallsOnly(calls);
    OneChunk(Text("", finish));
    assert content + "" + "" == content;
  }

  lemma NoEmptyConcat(a: seq<Chunk>, b: seq<Chunk>)
    requires NoEmptyText(a) && NoEmptyText(b)
    ensures NoEmptyText(a + b)
  {
  }

  lemma UnfinishedText(calls: Calls, p: Payload, chunks: seq<Chunk>)
    requires Emits(calls, p, chunks) && !Finishes(p)
    ensures TextIn(chunks) == (if p.Choice? then p.content else "") && Marks(chunks) == MarkOf(p) && NoEmptyText(chunks)
  {
    match p {
      case DoneMarker => OneChunk(Done);
      case Malformed =>
      case NoChoice(_) => OneChunk(Usage);
      case Choice(content, _, _) => ContentChunks(content);
    }
  }

  /** The calls that a finishing payload emits, and where. */
  lemma FinishedParts(calls: Calls, p: Payload, chunks: seq<Chunk>) returns (emitted: seq<ToolCall>)
    requires Emits(calls, p, chunks) && Finishes(p)
    ensures chunks == TextChunks(p.content) + Uses(emitted) + [Text("", p.finish)]
  {
    var all := Accumulate(calls, p.deltas);
    var order :| Enumerates(order, all) && (forall i | 0 <= i < |order| :: order[i] in all) &&
      chunks == TextChunks(p.content) + Uses(Listed(all, order)) + [Text("", p.finish)];
    emitted := Listed(all, order);
  }

  lemma FinishedText(content: string, emitted: seq<ToolCall>, finish: string, chunks: seq<Chunk>)
    requires finish != "" && chunks == TextChunks(content) + Uses(emitted) + [Text("", finish)]
    ensures TextIn(chunks) == content && Marks(chunks) == [Text("", finish)] && NoEmptyText(chunks)
    ensures content != "" ==> chunks[0] == Text(content, "")
    ensures chunks[|chunks| - 1] == Text("", finish)
  {
    FinishAccounts(content, emitted, finish);
    NoEmptyConcat(TextChunks(content), Uses(emitted));
    NoEmptyConcat(TextChunks(content) + Uses(emitted), [Text("", finish)]);
  }

  /** One payload emits its text, whole, in one piece and first, and its mark; a finish comes last. */
  lemma PayloadText(calls: Calls, p: Payload, chunks: seq<Chunk>)
    requires Emits(calls, p, chunks)
    ensures TextIn(chunks) == if p.Choice? then p.content else ""
    ensures Marks(chunks) == MarkOf(p)
    ensures NoEmptyText(chunks)
    ensures p.Choice? && p.content != "" ==> chunks != [] && chunks[0] == Text(p.content, "")
    ensures p.Choice? && p.finish != "" ==> chunks != [] && chunks[|chunks| - 1] == Text("", p.finish)
  {
    if Finishes(p) {
      var emitted := FinishedParts(calls, p, chunks);
      FinishedText(p.content, emitted, p.finish, chunks);
    } else {
      UnfinishedText(calls, p, chunks);
    }
  }

  lemma MarksOneMore(before: seq<Payload>, p: Payload)
    ensures MarksOf(before + [p]) == MarksOf(before) + MarkOf(p)
    ensures ContentOf(before + [p]) == ContentOf(before) + if p.Choice? then p.content else ""
  {
    assert (before + [p])[..|before|] == before;
    assert ContentOf(before) + "" == ContentOf(before);
  }

  /**
    The text of a whole stream is the text of its payloads in order, in pieces that are never empty; and
    its other chunks are one finish for each finished turn, one usage for each usage payload and one end
    for each end marker, in the order of the payloads.
  */
  lemma {:induction false} StreamEmitsText(payloads: seq<Payload>, chunks: seq<Chunk>)
    requires Produces(payloads, chunks)
    ensures TextIn(chunks) == ContentOf(payloads)
    ensures Marks(chunks) == MarksOf(payloads)
    ensures NoEmptyText(chunks)
    decreases |payloads|
  {
    if payloads == [] {
    } else {
      var before, p := payloads[..|payloads| - 1], payloads[|payloads| - 1];
      var a, b := ProducesSplit(payloads, chunks);
      StreamEmitsText(before, a);
      PayloadText(After(before), p, b);
      TextInConcat(a, b);
      MarksConcat(a, b);
      assert payloads == before + [p];
      MarksOneMore(before, p);
    }
  }

  // ---------------------------------------------------------------- conservation of arguments

  /** The number of characters of the arguments. */
  function ArgumentLength(deltas: seq<Delta>): nat {
    if deltas == [] then 0 else ArgumentLength(deltas[..|deltas| - 1]) + |deltas[|deltas| - 1].arguments|
  }

  function InputLength(calls: seq<ToolCall>): nat {
    if calls == [] then 0 else InputLength(calls[..|calls| - 1]) + |calls[|calls| - 1].input|
  }

  lemma {:induction false} ArgumentLengthConcat(a: seq<Delta>, b: seq<Delta>)
    ensures ArgumentLength(a + b) == ArgumentLength(a) + ArgumentLength(b)
  {
    if b == [] {
      assert a + b == a;
    } else {
      assert (a + b)[..|a + b| - 1] == a + b[..|b| - 1];
      ArgumentLengthConcat(a, b[..|b| - 1]);
    }
  }

  lemma {:induction false} InputLengthConcat(a: seq<ToolCall>, b: seq<ToolCall>)
    ensures InputLength(a + b) == InputLength(a) + InputLength(b)
  {
    if b == [] {
      assert a + b == a;
    } else {
      assert (a + b)[..|a + b| - 1] == a + b[..|b| - 1];
      InputLengthConcat(a, b[..|b| - 1]);
    }
  }

  lemma OtherSummariesStay(deltas: seq<Delta>, d: Delta, order: seq<int>)
    requires d.index !in order
    ensures SummaryList(deltas + [d], order) == SummaryList(deltas, order)
  {
    forall i | 0 <= i < |order| ensures Project(deltas + [d], order[i]) == Project(deltas, order[i]) {
      ProjectOneMore(deltas, d, order[i]);
    }
  }

  lemma ProjectOneMore(deltas: seq<Delta>, d: Delta, index: int)
    ensures Project(deltas + [d], index) == if d.index == index then Project(deltas, index) + [d] else Project(deltas, index)
  {
    assert (deltas + [d])[..|deltas|] == deltas;
  }

  lemma InputLengthInParts(a: seq<ToolCall>, call: ToolCall, b: seq<ToolCall>)
    ensures InputLength(a + [call] + b) == InputLength(a) + |call.input| + InputLength(b)
  {
    InputLengthConcat(a + [call], b);
    assert (a + [call])[..|a|] == a;
  }

  /** One more fragment makes the summary of its index longer, and no other. */
  lemma OneFragmentMore(deltas: seq<Delta>, d: Delta, u: seq<int>, v: seq<int>)
    requires d.index !in u && d.index !in v
    ensures var order := u + [d.index] + v;
      InputLength(SummaryList(deltas + [d], order)) == InputLength(SummaryList(deltas, order)) + |d.arguments|
  {
    OtherSummariesStay(deltas, d, u);
    OtherSummariesStay(deltas, d, v);
    SummaryListInParts(deltas, u, d.index, v);
    SummaryListInParts(deltas + [d], u, d.index, v);
    InputLengthInParts(SummaryList(deltas, u), Summary(deltas, d.index), SummaryList(deltas, v));
    InputLengthInParts(SummaryList(deltas, u), Summary(deltas + [d], d.index), SummaryList(deltas, v));
    ProjectOneMore(deltas, d, d.index);
    SummarySnoc(Project(deltas, d.index), d);
  }

  /** Where an index stands that is listed once. */
  lemma OnlyPlace(order: seq<int>, x: int) returns (u: seq<int>, v: seq<int>)
    requires multiset(order)[x] == 1
    ensures order == u + [x] + v && x !in u && x !in v
  {
    assert x in multiset(order);
    var j :| 0 <= j < |order| && order[j] == x;
    u, v := order[..j], order[j + 1..];
    assert order == u + [x] + v;
    assert multiset(order)[x] == multiset(u)[x] + 1 + multiset(v)[x];
    assert multiset(u)[x] == 0 && multiset(v)[x] == 0;
  }

  lemma {:induction false} EmptySummaries(order: seq<int>)
    ensures InputLength(SummaryList([], order)) == 0
  {
    if order == [] {
    } else {
      EmptySummaries(order[..|order| - 1]);
      assert SummaryList([], order)[..|order| - 1] == SummaryList([], order[..|order| - 1]);
    }
  }

  /** Summaries that mention every index once hold all arguments. */
  lemma {:induction false} SummariesHoldAll(deltas: seq<Delta>, order: seq<int>)
    requires forall d | d in deltas :: multiset(order)[d.index] == 1
    ensures InputLength(SummaryList(deltas, order)) == ArgumentLength(deltas)
  {
    if deltas == [] {
      EmptySummaries(order);
    } else {
      var before, d := deltas[..|deltas| - 1], deltas[|deltas| - 1];
      assert deltas == before + [d] && d in deltas;
      SummariesHoldAll(before, order);
      var u, v := OnlyPlace(order, d.index);
      OneFragmentMore(before, d, u, v);
    }
  }

  lemma {:induction false} TurnsHoldAll(parts: seq<seq<ToolCall>>, turns: seq<seq<Delta>>)
    requires EachTurnOnce(parts, turns)
    ensures InputLength(Flatten(parts)) == ArgumentLength(Flatten(turns))
    decreases |parts|
  {
    if parts == [] {
    } else {
      var n := |parts| - 1;
      TurnsHoldAll(parts[..n], turns[..n]);
      var order :| OneSummaryEach(parts[n], turns[n], order);
      forall d | d in turns[n] ensures multiset(order)[d.index] == 1 {
        assert d.index in Indices(turns[n]);
      }
      SummariesHoldAll(turns[n], order);
      InputLengthConcat(Flatten(parts[..n]), parts[n]);
      ArgumentLengthConcat(Flatten(turns[..n]), turns[n]);
    }
  }

  /**
    Over a whole stream the arguments emitted and those still open are all the arguments received:
    nothing is lost but what the stream leaves open, and nothing is emitted twice.
  */
  lemma ArgumentsAreConserved(payloads: seq<Payload>, chunks: seq<Chunk>)
    requires Produces(payloads, chunks)
    ensures InputLength(CallsIn(chunks)) + ArgumentLength(OpenDeltas(payloads)) == ArgumentLength(AllDeltas(payloads))
  {
    var parts := StreamEmitsTurns(payloads, chunks);
    TurnsHoldAll(parts, Turns(payloads));
    FragmentsAreInTurns(payloads);
    ArgumentLengthConcat(Flatten(Turns(payloads)), OpenDeltas(payloads));
  }

  // ---------------------------------------------------------------- conservation of calls

  /** How many of the fragments start a call that is not there yet. */
  function Starts(calls: Calls, deltas: seq<Delta>): nat {
    if deltas == [] then 0
    else
      var before, d := deltas[..|deltas| - 1], deltas[|deltas| - 1];
      Starts(calls, before) + if d.index in Accumulate(calls, before) then 0 else 1
  }

  /** How many calls the fragments of the whole stream started. */
  function Begun(payloads: seq<Payload>): nat {
    if payloads == [] then 0
    else
      var before, p := payloads[..|payloads| - 1], payloads[|payloads| - 1];
      Begun(before) + if p.Choice? then Starts(After(before), p.deltas) else 0
  }

  lemma {:induction false} StartsAreCounted(calls: Calls, deltas: seq<Delta>)
    ensures |Accumulate(calls, deltas)| == |calls| + Starts(calls, deltas)
  {
    if deltas == [] {
    } else {
      var before, d := deltas[..|deltas| - 1], deltas[|deltas| - 1];
      StartsAreCounted(calls, before);
      MergedSize(Accumulate(calls, before), d);
    }
  }

  lemma MergedSize(calls: Calls, d: Delta)
    ensures |Merge(calls, d)| == |calls| + if d.index in calls then 0 else 1
  {
    assert Merge(calls, d).Keys == calls.Keys + {d.index};
    assert |Merge(calls, d).Keys| == |Merge(calls, d)| && |calls.Keys| == |calls|;
  }

  lemma ListedSize(calls: Calls, order: seq<int>)
    requires Enumerates(order, calls) && forall i | 0 <= i < |order| :: order[i] in calls
    ensures |Listed(calls, order)| == |calls|
  {
    assert |multiset(order)| == |multiset(calls.Keys)| == |calls.Keys|;
  }

  /** What one payload emits and leaves open is what was open before and what it starts. */
  lemma PayloadConservesCalls(calls: Calls, p: Payload, chunks: seq<Chunk>)
    requires Emits(calls, p, chunks)
    ensures |CallsIn(chunks)| + |Next(calls, p)| == |calls| + if p.Choice? then Starts(calls, p.deltas) else 0
  {
    if p.Choice? {
      StartsAreCounted(calls, p.deltas);
    }
    if Finishes(p) {
      var all := Accumulate(calls, p.deltas);
      var order :| Enumerates(order, all) && (forall i | 0 <= i < |order| :: order[i] in all) &&
        chunks == TextChunks(p.content) + Uses(Listed(all, order)) + [Text("", p.finish)];
      CallsInFinish(p.content, Listed(all, order), p.finish);
      ListedSize(all, order);
    } else {
      UnfinishedHasNoCalls(calls, p, chunks);
    }
  }

  /** Over a whole stream the calls emitted and those still open are all the calls begun. */
  lemma {:induction false} CallsAreConserved(payloads: seq<Payload>, chunks: seq<Chunk>)
    requires Produces(payloads, chunks)
    ensures |CallsIn(chunks)| + |After(payloads)| == Begun(payloads)
    decreases |payloads|
  {
    if payloads == [] {
    } else {
      var before, p := payloads[..|payloads| - 1], payloads[|payloads| - 1];
      var a, b := ProducesSplit(payloads, chunks);
      CallsAreConserved(before, a);
      PayloadConservesCalls(After(before), p, b);
      CallsInConcat(a, b);
    }
  }

  lemma NothingOpenIff(payloads: seq<Payload>)
    ensures |After(payloads)| == 0 <==> OpenDeltas(payloads) == []
  {
    var open := OpenDeltas(payloads);
    StateIsOpenDeltas(payloads);
    AccumulatedIndices(open);
    if open != [] {
      assert open[0] in open && open[0].index in Indices(open);
      assert open[0].index in After(payloads);
    }
  }

  /**
    Every call begun is emitted if and only if no fragment follows the last finish; if so, the emitted
    calls also hold all arguments received.
  */
  lemma EveryFragmentIsEmittedIff(payloads: seq<Payload>, chunks: seq<Chunk>)
    requires Produces(payloads, chunks)
    ensures |CallsIn(chunks)| == Begun(payloads) <==> OpenDeltas(payloads) == []
    ensures InputLength(CallsIn(chunks)) == ArgumentLength(AllDeltas(payloads)) <==> ArgumentLength(OpenDeltas(payloads)) == 0
  {
    CallsAreConserved(payloads, chunks);
    NothingOpenIff(payloads);
    ArgumentsAreConserved(payloads, chunks);
  }

  // ---------------------------------------------------------------- the accumulator itself

  class OpenAIStreamAccumulator {
    var toolCalls: Calls

    constructor ()
      ensures toolCalls == After([])
    {
      toolCalls := map[];
    }

    method ParseChunk(p: Payload) returns (chunks: seq<Chunk>, failed: bool)
      modifies this
      ensures failed <==> p.Malformed?
      ensures Emits(old(toolCalls), p, chunks)
      ensures toolCalls == Next(old(toolCalls), p)
      ensures TextIn(chunks) == (if p.Choice? then p.content else "") && NoEmptyText(chunks)
      ensures p.Choice? && p.content != "" ==> chunks != [] && chunks[0] == Text(p.content, "")
      ensures p.Choice? && p.finish != "" ==> toolCalls == map[] && chunks != [] && chunks[|chunks| - 1] == Text("", p.finish)
    {
      ghost var before := toolCalls;
      chunks, failed := [], false;
      match p {
        case DoneMarker =>
          chunks := [Done];
        case Malformed =>
          failed := true;
        case NoChoice(usage) =>
          if usage {
            chunks := [Usage];
          }
        case Choice(content, deltas, finish) =>
          if content != "" {
            chunks := [Text(content, "")];
          }
          MergeDeltas(deltas);
          if finish != "" {
            var uses, order := EmitCalls();
            chunks := chunks + uses + [Text("", finish)];
            toolCalls := map[];
          }
      }
      PayloadText(before, p, chunks);
    }

    /** `for _, tc := range choice.Delta.ToolCalls` */
    method MergeDeltas(deltas: seq<Delta>)
      modifies this
      ensures toolCalls == Accumulate(old(toolCalls), deltas)
    {
      for i := 0 to |deltas|
        invariant toolCalls == Accumulate(old(toolCalls), deltas[..i])
      {
        assert deltas[..i + 1][..i] == deltas[..i];
        var d := deltas[i];
        if d.index !in toolCalls {
          toolCalls := toolCalls[d.index := ToolCall(d.id, d.name, "")];
        }
        var existing := toolCalls[d.index];
        if d.id != "" {
          existing := existing.(id := d.id);
        }
        if d.name != "" {
          existing := existing.(name := d.name);
        }
        existing := existing.(input := existing.input + d.arguments);
        toolCalls := toolCalls[d.index := existing];
      }
      assert deltas[..|deltas|] == deltas;
    }

    /** `for _, tc := range a.toolCalls` */
    method EmitCalls() returns (uses: seq<Chunk>, ghost order: seq<int>)
      ensures Enumerates(order, toolCalls)
      ensures forall i | 0 <= i < |order| :: order[i] in toolCalls
      ensures uses == Uses(Listed(toolCalls, order))
    {
      var left := toolCalls;
      order, uses := [], [];
      while left != map[]
        invariant left.Keys <= toolCalls.Keys
        invariant forall i | 0 <= i < |order| :: order[i] in toolCalls
        invariant multiset(order) + multiset(left.Keys) == multiset(toolCalls.Keys)
        invariant uses == Uses(Listed(toolCalls, order))
        decreases |left|
      {
        ghost var witnessed := SomeKey(left);
        var k :| k in left;
        order := order + [k];
        uses := uses + [ToolUse(Some(toolCalls[k]))];
        left := left - {k};
      }
    }
  }
}
