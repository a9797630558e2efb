# CapyClaw: a verified model of its protocols, codecs and state machines

CapyClaw is an AI-agent platform written in Go with a browser front end. Most of it moves data
between Postgres, Redis and LLM providers. This project models, in Dafny, the parts that carry
state of their own, and proves what they guarantee for every input and every interleaving.

| file | what it models |
|---|---|
| `Mcp.dfy` | request correlation of the MCP JSON-RPC client: concurrent calls, cancellation, one receive loop |
| `Consolidator.dfy` | memory consolidation: greedy merge over a similarity graph with stale values, pruning, top-k cap |
| `RateLimit.dfy`, `RateLimitRuns.dfy`, `RateLimitSharp.dfy` | the Redis fixed-window limiter with INCR and EXPIRE as separate, interleaved commands; runs that reach its bound |
| `Pipeline.dfy` | the agent pipeline: first LLM call, compaction, bounded tool loop, output channel |
| `Requests.dfy` | what every run of the pipeline sends and streams, told from the LLM's streams alone |
| `Render.dfy` | how message lists become OpenAI and Anthropic requests |
| `Accumulator.dfy` | the OpenAI tool-call accumulator |
| `OpenAIStream.dfy` | the OpenAI provider's goroutine: SSE parser and accumulator together, also when the connection breaks |
| `Anthropic.dfy`, `AnthropicStream.dfy` | the Anthropic content-block decoder, and a run of the pipeline on a stream with an error event |
| `Sse.dfy` | the Server-Sent Events parser |
| `Gateway.dfy` | the gateway's SSE writer and the browser's buffered reader, end to end with the pipeline |
| `Herd.dfy` | sub-agent lifecycle: Spawn, Stop, concurrent StopAll |
| `Workflow.dfy` | sequential, parallel and supervisor workflows |
| `Exporter.dfy` | the audit exporter's cursor |
| `Shell.dfy` | shell quoting of the bash tool |
| `Llm.dfy`, `Lines.dfy`, `Common.dfy` | shared types and facts |

## How the model is built

Code that updates fields or runs loops is a class or a method here, and each such method is proved
equal to a function of the old state. The properties are lemmas about those functions; for each operation
some of them say what it brings about in terms of inputs and whole runs alone, without those functions.

Concurrent code (`Mcp`, `RateLimit`, `Herd`, the fan-outs of `Workflow`) is a state, a set of atomic
actions and a function `Apply`; the atomic actions are the lock-protected sections, channel
operations and single Redis commands of the source. `Exec` runs a schedule, an arbitrary sequence
of actions, and skips an action that is blocked where the schedule puts it, so a statement about all
schedules is a statement about all interleavings. The methods of `Mcp.Client`, `RateLimit.Middleware`,
`Herd.Manager` and `Workflow.ParallelRun` implement the actions one by one.

What the code cannot see is a parameter and arbitrary: LLM streams, tool outputs, delegated agents,
server messages, schedules, which pairs of memories are similar, the decay function, the JSON codec
(of which only printing without line feeds and reading back is assumed), the order in which Go
iterates over a map.

`BareSetup` says that the messages a run starts from carry no tool blocks, which is how
`internal/burrow/pipeline.go:375-400` builds them; their roles are arbitrary.

Findings about the code that the proofs turned up:

- A tool input that decodes to null ends the process: the decoded map is nil, and writing the agent's id
  into it panics (`internal/burrow/pipeline.go:603-608`). `OneTerminalChunkIff` and
  `PromptReturnsTranscriptIff` hold exactly when the tool loop meets no such call of a registered tool;
  `NullInputCrashes` is the failing run.
- A client may send a message with the role "tool" (`internal/riverbank/handlers.go:212`); it goes to the LLM
  as a tool message that answers nothing. As the prompt builder and the session persister work, that is the
  only way a request can be badly paired: `BuiltRequestsArePairedIff`, `BuiltOpenAIRequestsArePairedIff`;
  `StrayToolMessageIsSent` is the run. `EveryRequestIsPairedIff` gives the condition for any stored history.
- A client's message with the role "system" takes the place of the agent's prompt in requests to Anthropic:
  `SystemPromptIsKeptIff`, `ClientReplacesSystemPrompt`.
- The comment on merging promises a combined access count. Merging never raises the total, but it
  keeps it only when no merge with an accessed memory is overwritten by a later merge of the same
  keeper: `ChainForgetsAccess` is the counterexample, `MergeKeepsTotalIff` the exact condition.
- The rate limiter can admit up to 2N - 1 requests in a window, not N, each counted at the instant of its
  increment of the window's counter: `AdmissionBounds`. For all limits of one or more some run reaches the
  bound in a minute and some run reaches it in an hour (`MinuteBoundIsAttained`, `HourBoundIsAttained`), so
  a limit holds for every window exactly if it is one at most or nobody is admitted (`LimitHoldsIff`). In these
  runs requests wait between their two increments; where 30 minutes of the minute limit reach the hour limit,
  as with 60 and 1000, a run without such waiting reaches the hour's bound too (`HourBoundIsAttainedPromptly`).
- A failed EXPIRE, or an INCR whose reply is lost, leaves a counter that never ends; once it is full its tenant
  and user are locked out for good, unless a Redis error lets them through: `CounterCanEndIff`,
  `StuckCounterLocksOut`, `OneErrorLocksOut`. A colon in tenant ids lets two tenants share a counter:
  `SharedKeyIff`, `TenantsCanCollide`.
- The SSE parser agrees with the standard exactly when at every empty line the block has no data field, or a
  single one with a space after its colon and a value, and the event names agree: `AgreesWithStandardIff`.
  Otherwise it keeps an event name across a block without data (`EventNameLeaks`), keeps only the last of
  several data lines (`DataLinesAreNotJoined`), drops empty data (`EmptyDataIsLost`) and ignores fields
  without the space (`UnspacedDataIsLost`, `UnspacedEventIsLost`). A CR without LF ends a line only for the
  standard (`LoneCRIsData`, `ExtraCREndsBlock`). What the providers send is regular, and
  regular streams agree: `RegularIsAgreeable`.
- A connection to OpenAI that breaks in the middle of a response looks like its end: `BrokenConnectionIsSilent`,
  `BrokenStreamIsDone`. Calls whose fragments follow the last finish are dropped: `EveryFragmentIsEmittedIff`.
- When an MCP transport is closed, calls that wait get no error: each ends only with its own context:
  `ClosedTransportAnswersNobody`.
- A failed run and a done run with the same text look the same to the browser: `FailureLooksDone`.
- The exporter reads the newest 200 events of the whole log; when an acknowledged tick finds more
  than 200 new ones, the oldest of them are never exported, and neither is an event that becomes visible
  behind the cursor: `SentIsPrefixIff`.
- A tool block that arrives without an id is dropped without notice: `NoToolBlockIsLostIff`.

## Model

| member | source | states |
|---|---|---|
| Mcp.DecimalInjective | pkg/mcp/client.go:71 | two different calls never have the same request id |
| Mcp.StepKeepsInv | pkg/mcp/client.go:70-128 | every atomic action of calls and receive loop, in any state, keeps the bookkeeping of ids, channels and replies |
| Mcp.AnswerCarriesOwnId | pkg/mcp/client.go:95-106 | in every interleaving a call that returns a result returns that of a received message carrying its own id |
| Mcp.ResponseCompletesOneCall | pkg/mcp/client.go:118-126 | no received message completes two calls |
| Mcp.CallGetsOneReply | pkg/mcp/client.go:83-126 | a reply handed to a call stays with it in every continuation, and however many messages repeat the call's id no other is ever handed to it |
| Mcp.PushNeverBlocks | pkg/mcp/client.go:124-126 | whenever the receive loop is about to send on a call's channel, its one slot is free |
| Mcp.ReturnedCallIsNotPending | pkg/mcp/client.go:88-106 | a call that has returned, with a result or any error, is no longer in the pending map |
| Mcp.WaitingCallIsNeverLost | pkg/mcp/client.go:95-126 | a call in the select is in exactly one of three places: registered, being pushed to, or holding its reply |
| Mcp.MatchingResponseIsReturned | pkg/mcp/client.go:101-126 | after a message with a registered call's id, in every continuation: once neither loop nor select has a step left for the call, it has returned that message, unless its Send failed or its context ended |
| Mcp.ClosedTransportAnswersNobody | pkg/mcp/client.go:95-109 | once the transport's channel is closed a call without a reply never returns a result: in the select it can only see the end of its context, and returns that |
| Mcp.ClosingAbandons | pkg/mcp/client.go:109 | when the transport closes, exactly the calls to which no reply has been handed are left without one |
| Mcp.CallBegins | pkg/mcp/client.go:71 | a call begins with an id no call has had, and leaves the others where they are |
| Mcp.ServedCallReturns | pkg/mcp/client.go:70-126 | from any reachable state, a call that is encoded, sent and answered with its id returns that answer |
| Mcp.CallCanFail | pkg/mcp/client.go:72-106 | no call is stuck: from wherever it stands it can return an error, and returns the one of that place |
| Mcp.StrangeMessageIsIgnored | pkg/mcp/client.go:110-123 | a message that does not decode, has no id or answers no registered call leaves no trace |
| Mcp.OnlyOwnStepsMoveCall | pkg/mcp/client.go:70-128 | no step of the loop or of another call moves a call |
| Mcp.Client.DrawId | pkg/mcp/client.go:71 | drawing an id is the Begin action |
| Mcp.Client.RegisterCall | pkg/mcp/client.go:72-86 | encoding and registering is the Register action, or FailMarshal when encoding fails |
| Mcp.Client.SendReturned | pkg/mcp/client.go:88 | the return of Send is the ReturnFromSend action |
| Mcp.Client.Select | pkg/mcp/client.go:95-106 | the select takes the SeeDone or the Take action |
| Mcp.Client.WithdrawCall | pkg/mcp/client.go:89-100 | deleting the id under the lock is the Withdraw action |
| Mcp.Client.ReceiveNext | pkg/mcp/client.go:110-117 | taking a message, skipped when undecodable or without id, is the Receive action |
| Mcp.Client.LookupPending | pkg/mcp/client.go:118-123 | lookup and delete in one critical section is the Lookup action |
| Mcp.Client.PushResult | pkg/mcp/client.go:124-126 | sending the result on the channel is the Push action |
| Mcp.Client.EndLoop | pkg/mcp/client.go:109 | when the transport's channel is closed the loop has ended |
| Consolidator.JoinIsExact | internal/pond/memory/consolidator.go:104-119 | the similarity query returns exactly the close pairs of memories of the agent and one kind, smaller id first, with their current values |
| Consolidator.FetchKeepsMostSimilar | internal/pond/memory/consolidator.go:104-141 | all such pairs are fetched if they are at most 50, otherwise 50 that are at least as similar as any other |
| Consolidator.DropIsBeatenByKeep | internal/pond/memory/consolidator.go:152-162 | every deletion removes the strictly lower member of a fetched pair, by score descending, then id ascending |
| Consolidator.KeepIsAsValuable | internal/pond/memory/consolidator.go:152-162 | every merge is of two memories of the agent and of one kind, and keeps one whose importance times accesses plus one is at least the other's, the smaller id where they are equal |
| Consolidator.OutrankingIsNotDropped | internal/pond/memory/consolidator.go:152-162 | of two memories with positive importance, one at least as important and as often accessed, and more of one of them, is never deleted for the other |
| Consolidator.DroppedStaysOut | internal/pond/memory/consolidator.go:144-150 | a deleted memory takes part in no later merge |
| Consolidator.NoPairSurvives | internal/pond/memory/consolidator.go:147-190 | no fetched pair ends with both members alive |
| Consolidator.ClimbsToSurvivor | internal/pond/memory/consolidator.go:147-190 | from every memory a walk along fetched pairs, each memory beating the one before, leads to a survivor |
| Consolidator.BestOfComponentSurvives | internal/pond/memory/consolidator.go:147-190 | the best memory of a connected component of the similarity graph is never deleted |
| Consolidator.SurvivingRow | internal/pond/memory/consolidator.go:158-175 | a survivor ends with its snapshot count plus that of the last memory merged into it, its importance raised once exactly if one was, all else untouched |
| Consolidator.MergeConservesAccess | internal/pond/memory/consolidator.go:158-188 | total access after merging plus the counts lost by overwriting equals the total before |
| Consolidator.MergeKeepsTotalIff | internal/pond/memory/consolidator.go:158-188 | the total never grows, and is kept exactly when every merge whose keeper merges again had deleted a never-accessed memory |
| Consolidator.KeepsTotalIffDisjoint | internal/pond/memory/consolidator.go:143-188 | when all deleted memories had been accessed, the total is kept exactly when no memory is in two merges |
| Consolidator.ChainForgetsAccess | internal/pond/memory/consolidator.go:170-175 | a memory that absorbs two others, the first of them accessed, loses access counts |
| Consolidator.ChainForgetsAccessWitness | internal/pond/memory/consolidator.go:170-175 | there is a table and a pair list on which merging loses access counts |
| Consolidator.CapIsIdempotent | internal/pond/memory/consolidator.go:216-241 | enforcing the cap twice changes nothing more |
| Consolidator.CapIsUniqueUpToTies | internal/pond/memory/consolidator.go:229-236 | two results of the cap differ only in memories of equal score |
| Consolidator.CapRemovesLeastValuable | internal/pond/memory/consolidator.go:216-241 | the cap keeps as many of the agent's memories as the limit allows, none of lower importance times accesses plus one than one it removed; no memory falls to it before one that it outranks |
| Consolidator.ConsolidationGuarantees | internal/pond/memory/consolidator.go:40-83 | after a consolidation: within the cap, other agents' rows untouched, no new ids, importances in [0, 1], no episodic memory accessed less than twice whose decayed importance is below the threshold, and no fetched pair left whole |
| Consolidator.SurvivorIsEnriched | internal/pond/memory/consolidator.go:40-83 | what a whole consolidation makes of each memory it leaves: at least its accesses, and its importance raised by 0.05 for frequent access and again for a merge into it, up to 1 |
| Consolidator.NoSimilarPairIsLeft | internal/pond/memory/consolidator.go:102-193 | unless the query found more than 50 pairs, no two memories of the agent and one kind remain whose similarity exceeds the threshold |
| Consolidator.RemovalIsJustified | internal/pond/memory/consolidator.go:40-83 | a memory that is gone was merged into one at least as valuable, or was a decayed episodic memory accessed less than twice, or fell to a cap that was exceeded, is now exactly met, and kept only memories at least as valuable |
| Consolidator.LowestScoring | internal/pond/memory/consolidator.go:230-235 | selecting n rows by ascending score yields exactly n rows that no other row scores below |
| Consolidator.Consolidator.constructor | internal/pond/memory/consolidator.go:21-37 | both settings end up positive: a positive one is kept, others fall back to 500 and 0.05 |
| Consolidator.BoostRaisesFrequent | internal/pond/memory/consolidator.go:86-99 | the boost raises exactly the importances below 0.9 of the agent's rows with five accesses or more, by at most 0.05 and to less than 0.95, and keeps them in [0,1]; nothing else changes |
| Consolidator.BoostSettles | internal/pond/memory/consolidator.go:86-99 | repeated boosts come to rest: from the 18th on another one changes nothing |
| Consolidator.Consolidator.BoostFrequentlyAccessed | internal/pond/memory/consolidator.go:86-99 | the update reports as affected exactly the number of rows it changes |
| Consolidator.Consolidator.MergeSimilar | internal/pond/memory/consolidator.go:102-193 | the merge loop leaves the table and the counter that the merge functions define |
| Consolidator.Consolidator.MergePair | internal/pond/memory/consolidator.go:152-188 | one merge deletes the memory with the lower importance times accesses plus one, the second on a tie, and gives the other the combined count |
| Consolidator.PruneSparesTheBetter | internal/pond/memory/consolidator.go:196-213 | what pruning leaves shields every memory of the agent that is as important, as often accessed and no older; other kinds, other agents and rows accessed twice are never touched |
| Consolidator.PruningEarlyLosesNothing | internal/pond/memory/consolidator.go:196-213 | for an antitone decay, pruning now as well does not change what a later pruning leaves |
| Consolidator.Consolidator.PruneDecayedEpisodic | internal/pond/memory/consolidator.go:196-213 | the deletion reports as affected exactly the number of rows that are gone |
| Consolidator.Consolidator.EnforceHardCap | internal/pond/memory/consolidator.go:216-241 | the cap removes exactly the excess, and no removed memory has a higher importance times accesses plus one than a kept one |
| Consolidator.Consolidator.Consolidate | internal/pond/memory/consolidator.go:40-83 | the four steps in order leave a capped table of what the first three make |
| Consolidator.Consolidator.ConsolidateAllAgents | internal/pond/memory/consolidator.go:244-267 | a run consolidates every agent once, one after another; afterwards every agent is within the cap and no decayed memory is left |
| RateLimit.PhasesHaveTheirOwnKeys | internal/riverbank/middleware/ratelimit.go:34-56 | a minute key and an hour key are never the same key |
| RateLimit.SharedKeyIff | internal/riverbank/middleware/ratelimit.go:34-56 | two tenants and users share a counter exactly if it is the same phase and their ids spell the same text with a colon between |
| RateLimit.TenantsCanCollide | internal/riverbank/middleware/ratelimit.go:34 | ids with colons of two different tenants do share one |
| RateLimit.LowHitsInProgress | internal/riverbank/middleware/ratelimit.go:35-46 | within one window the increments not over the limit number at most 2N - 1 |
| RateLimit.HistoryIsWellCounted | internal/riverbank/middleware/ratelimit.go:33-65 | in every run a key's counts rise by one within a generation and generations start at least a window apart |
| RateLimit.AdmissionBounds | internal/riverbank/middleware/ratelimit.go:33-84 | in every interleaving any 60 seconds contain at most 2N - 1 admissions of a tenant and user, and any hour at most 2H - 1 |
| RateLimitSharp.MinuteBoundIsAttained | internal/riverbank/middleware/ratelimit.go:33-84 | for all limits of one or more there is a run that admits exactly 2N - 1 requests within 60 seconds, so the bound is exact |
| RateLimitSharp.HourBoundIsAttained | internal/riverbank/middleware/ratelimit.go:33-84 | for all limits of one or more there is a run that admits exactly 2H - 1 requests within an hour |
| RateLimitSharp.HourBoundIsAttainedPromptly | internal/riverbank/middleware/ratelimit.go:33-84 | for every hour limit of at most 30 minute limits there is such a run in which every request passes both counters at one instant |
| RateLimitSharp.LimitHoldsIff | internal/riverbank/middleware/ratelimit.go:33-84 | for all settings: no 60 seconds of any run admit more than the minute limit if and only if it is zero or one or nobody is admitted, and likewise for the hour |
| RateLimit.CountIsDistanceFromStart | internal/riverbank/middleware/ratelimit.go:35-44 | a count of c closes a run of c increments, counted one to c, that began a generation |
| RateLimit.RejectedOnlyWhenFull | internal/riverbank/middleware/ratelimit.go:46-73 | a request is answered 429 only as the last of a run of more increments than the limit, counted one by one from the start of its own generation |
| RateLimit.CounterCanEndIff | internal/riverbank/middleware/ratelimit.go:42-65 | a counter can still come to its end if and only if its EXPIRE took effect or is about to be sent |
| RateLimit.StuckCounterLocksOut | internal/riverbank/middleware/ratelimit.go:46-84 | a counter that cannot end and has reached the limit keeps every later request from being served within the limits, in every continuation |
| RateLimit.OneErrorLocksOut | internal/riverbank/middleware/ratelimit.go:35-44 | for every limit some run with one failed EXPIRE, and some run with one lost reply to INCR, ends with such a counter, full |
| RateLimit.RunningRequestCanStep | internal/riverbank/middleware/ratelimit.go:31-84 | no request is stuck between two Redis commands, and the count a decision needs is always there |
| RateLimit.RequestAlone | internal/riverbank/middleware/ratelimit.go:18-84 | in any reachable state a request that nothing comes between is bypassed, rejected by the minute, rejected by the hour or served exactly as the counts with it say, and leaves exactly those counts and, for new counters, their lifetimes |
| RateLimit.CountErrorFailsOpen | internal/riverbank/middleware/ratelimit.go:35-61 | an INCR that fails lets the request through at once, and leaves no trace if it was not carried out |
| RateLimit.DecisionStands | internal/riverbank/middleware/ratelimit.go:31-84 | a decision once made stands in every continuation, and nothing moves a request but its own steps |
| RateLimit.Middleware.Accept | internal/riverbank/middleware/ratelimit.go:18-29 | requests without tenant or user, or with limiting off, pass unlimited; others start at the minute counter |
| RateLimit.Middleware.Count | internal/riverbank/middleware/ratelimit.go:35-61 | INCR creates or raises the counter, also when its reply is lost, and a Redis error fails open |
| RateLimit.Middleware.LimitLifetime | internal/riverbank/middleware/ratelimit.go:42-65 | EXPIRE after a first count sets the counter's end; its error is ignored |
| RateLimit.Middleware.Decide | internal/riverbank/middleware/ratelimit.go:46-84 | a count over the limit rejects, a minute count within it goes on to the hour, an hour count within it serves |
| Pipeline.EveryRequestIsPairedIff | internal/burrow/pipeline.go:462-681 | every message list sent to the LLM matches each tool call with its result in the next message; all lists are free of other tool messages if and only if no loaded message with the role "tool" is sent |
| Pipeline.FirstRequestStrays | internal/burrow/pipeline.go:839-883 | the first request is free of them exactly if compaction drops every one: it keeps the first message and the last four |
| Requests.LaterRequestsHoldTranscript | internal/burrow/pipeline.go:577-681 | in every run, done, failed or crashed, the k-th request after the first is the system prompt, the whole history and the first k rounds of the transcript, the last of which is what the k-th stream said and asked for and the answer to its calls |
| Requests.FirstRequestOmitsOnlySummarized | internal/burrow/pipeline.go:462-503 | in every run the first request is the prompt and the history, or leaves out exactly the messages whose summary it holds instead, never the first or the last four |
| Requests.EstimateIsThird | internal/burrow/pipeline.go:822-837 | the estimate that triggers compaction is a third of all characters, tool inputs and results included, up to rounding each piece down |
| Requests.FailureNamesStream | internal/burrow/pipeline.go:133-147 | a run with a client fails if and only if the last stream it opened was refused or broke off, and its error chunk names the stage, the cause and the loop; other failures put out their error alone |
| Pipeline.BuiltRequestsArePairedIff | internal/burrow/pipeline.go:375-400 | for setups as the prompt builder and the persister make them, all requests are fully paired if and only if the incoming message has not the role "tool", or there is no client |
| Pipeline.StrayToolMessageIsSent | internal/burrow/pipeline.go:397-400 | a client's message with the role "tool" is sent as it is |
| Pipeline.TranscriptIsPaired | internal/burrow/pipeline.go:577-725 | unless the run crashes, the final transcript is matched too, also when the iteration cap drops pending calls |
| Pipeline.OneTerminalChunkIff | internal/burrow/pipeline.go:129-150 | a run's output is text and tool results followed by exactly one terminal chunk if and only if the tool loop comes to no call of a registered tool whose input decodes to null |
| Pipeline.NullInputCrashes | internal/burrow/pipeline.go:603-608 | such a call as the first one ends the output with the text before it |
| Pipeline.StreamedTextIsTranscript | internal/burrow/pipeline.go:521-531 | on a done run the streamed text is the text of the appended messages followed by the final answer |
| Requests.EveryTextIsStreamed | internal/burrow/pipeline.go:521-531 | in every run, done, failed or crashed, the client gets exactly the text of the streams opened, each up to its first error |
| Pipeline.ReadIsHeard | internal/burrow/pipeline.go:521-557 | what is read of a stream is all text and all calls before its first error, and that error |
| Pipeline.ToolResultsAreStreamed | internal/burrow/pipeline.go:591-644 | in every run each tool_result chunk and transcript result is what its call must put out: the error of a missing tool, or what the tool reports when run with the agent's id and the fields of the input, or with the raw input; the executed calls are the transcript's calls in order, and after a crash the next one is the call that panicked |
| Pipeline.OneAnswer | internal/burrow/pipeline.go:594-628 | no other arguments carry a call's input, so what a call must put out is determined |
| Pipeline.StreamsAreBounded | internal/burrow/pipeline.go:97-100 | besides compaction a run opens at most one stream more than the iteration limit, 10 by default |
| Pipeline.NoCallIsLost | internal/burrow/pipeline.go:577-725 | on a done run every requested call was executed once, in order, except those of the last stream when the cap (10 iterations unless configured) or a missing executor ends the run |
| Pipeline.CompactedRequest | internal/burrow/pipeline.go:839-883 | a compacted request is the first message, one summary as a user message, and the last four messages |
| Pipeline.CompactionKeepsRecent | internal/burrow/pipeline.go:839-883 | compaction keeps the last four messages and the system prompt, and leaves six messages |
| Pipeline.PromptReturnsTranscriptIff | internal/burrow/pipeline.go:157-192 | collecting a run fails exactly when the run is not done, if and only if the run does not crash; it returns all streamed text with the error of the last chunk, if that is one, and a done run's text is the transcript's |
| Pipeline.CollectPrompt | internal/burrow/pipeline.go:182-191 | the collecting loop returns the text up to the first error chunk and that error |
| Pipeline.PipelineRequest.StreamFrom | internal/burrow/pipeline.go:512-560 | opening a stream and taking it in changes the request as Converse says, also on refusal and error |
| Pipeline.PipelineRequest.ForwardChunks | internal/burrow/pipeline.go:521-557 | the chunk loop forwards every text chunk, collects every call, and stops at the first error |
| Pipeline.PipelineRequest.LLMInvokerProcess | internal/burrow/pipeline.go:462-562 | the LLM stage sends the prompt and history, compacted when the estimate says so |
| Pipeline.Invoke | internal/burrow/pipeline.go:594-628 | one call is looked up, its input decoded and run: unknown tools, malformed inputs, tool errors and the panic on a nil map each as the code has it |
| Pipeline.PipelineRequest.ExecuteEach | internal/burrow/pipeline.go:591-637 | the loop executes the calls one by one, sends and collects each output, and stops where one panics |
| Pipeline.PipelineRequest.ExecuteCalls | internal/burrow/pipeline.go:591-644 | what is executed, sent and collected are exactly the calls before the first that panics, or all of them |
| Pipeline.PipelineRequest.RunToolCalls | internal/burrow/pipeline.go:580-645 | one round appends one assistant message with all calls and one tool message with all results, unless a call panics |
| Pipeline.PipelineRequest.Round | internal/burrow/pipeline.go:577-719 | one turn of the loop appends the question and the answer to its calls, and then opens the next stream with the system prompt and all messages, those two included |
| Pipeline.PipelineRequest.ToolRounds | internal/burrow/pipeline.go:577-725 | the loop makes one turn after another, each from what the one before left, until one ends without calls, fails or panics, or the iterations are used up |
| Pipeline.RoundsAreLoop | internal/burrow/pipeline.go:577-725 | such turns are exactly the bounded loop that the guarantees of a run are proved of |
| Pipeline.PipelineRequest.ToolExecutorProcess | internal/burrow/pipeline.go:572-728 | the tool stage runs the loop only if there are calls and an executor |
| Pipeline.PipelineRequest.Process | internal/burrow/pipeline.go:133-150 | the stages run in order; the first failure ends the run with an error chunk naming the stage, a panic with none |
| Render.RenderOpenAI | internal/burrow/llm/providers/openai.go:43-82 | the rendering loop produces the wire messages of the OpenAI function |
| Render.OpenAIRoundTrip | internal/burrow/llm/providers/openai.go:43-82 | regrouping consecutive tool messages recovers every matched message list, stray tool messages included |
| Render.OpenAIWireIsPairedIff | internal/burrow/llm/providers/openai.go:45-81 | on the wire each message with n calls is followed by exactly n tool messages with the calls' ids in order, and no tool message appears otherwise if and only if the list has no stray one |
| Render.RenderAnthropic | internal/burrow/llm/providers/anthropic.go:46-91 | the rendering loop produces the system prompt and messages of the Anthropic function |
| Render.ToolUseContent | internal/burrow/llm/providers/anthropic.go:56-71 | an assistant message with calls becomes its text, if any, and one tool_use block per call |
| Render.AnthropicUsesAreAnswered | internal/burrow/llm/providers/anthropic.go:54-88 | every list of tool_use ids is the list of tool_result ids of the very next message, and results appear nowhere else |
| Render.AnthropicRoundTrip | internal/burrow/llm/providers/anthropic.go:46-91 | apart from system prompts and normalized inputs, reading the messages back gives the message list |
| Render.EveryOpenAIRequestIsPairedIff | internal/burrow/pipeline.go:652-681 | every request of every run loses nothing on OpenAI's wire, and all are well paired there if and only if no loaded message with the role "tool" is sent |
| Render.BuiltOpenAIRequestsArePairedIff | internal/burrow/pipeline.go:375-400 | for such setups exactly an incoming message with the role "tool" breaks the pairing on OpenAI's wire |
| Render.EveryAnthropicRequestIsPaired | internal/burrow/pipeline.go:652-681 | every request of every run is well paired for Anthropic and loses nothing but system prompts and input formatting |
| Render.SystemPromptIsKeptIff | internal/burrow/llm/providers/anthropic.go:45-51 | in every request of such a setup the system field is the agent's prompt if and only if the incoming message is not a system message with another text, which would take its place |
| Render.ClientReplacesSystemPrompt | internal/burrow/llm/providers/anthropic.go:45-51 | a client's system message replaces the agent's prompt and is no message of the request |
| Accumulator.AccumulateIsSummary | internal/burrow/llm/streaming.go:138-151 | each index accumulates the last non-empty id, the last non-empty name and all argument pieces in order |
| Accumulator.AccumulateResumes | internal/burrow/llm/streaming.go:138-151 | it does not matter how the fragments are cut into chunks |
| Accumulator.SameProjectionsSameCalls | internal/burrow/llm/streaming.go:138-151 | it does not matter how the fragments of different calls are interleaved |
| Accumulator.StateIsOpenDeltas | internal/burrow/llm/streaming.go:161-162 | the state depends only on the fragments since the last finish: no turn sees anything of the one before |
| Accumulator.FinishEmitsSummaries | internal/burrow/llm/streaming.go:154-169 | the finishing chunk emits exactly one complete call per index, and leaves an empty state |
| Accumulator.SameProjectionsSameEmission | internal/burrow/llm/streaming.go:137-169 | turns whose fragments agree index by index emit the same multiset of calls |
| Accumulator.StreamEmitsTurns | internal/burrow/llm/streaming.go:102-173 | the calls of a whole stream are those of its finished turns in order, one complete call per index of each |
| Accumulator.StreamEmitsText | internal/burrow/llm/streaming.go:102-173 | the text of a stream is the text of its payloads in order, in pieces never empty, and its other chunks are one finish per finished turn, one usage per usage payload and one end per end marker, in order |
| Accumulator.PayloadText | internal/burrow/llm/streaming.go:130-169 | each payload emits its text first and in one piece, and a finish last |
| Accumulator.ArgumentsAreConserved | internal/burrow/llm/streaming.go:138-169 | over a whole stream the arguments emitted plus those left open are all the arguments received |
| Accumulator.CallsAreConserved | internal/burrow/llm/streaming.go:138-169 | over a whole stream the calls emitted plus those left open are all the calls begun |
| Accumulator.EveryFragmentIsEmittedIff | internal/burrow/llm/streaming.go:154-169 | every call begun is emitted if and only if no fragment follows the last finish, and all arguments are emitted if and only if none of those follows it |
| Accumulator.OpenAIStreamAccumulator.ParseChunk | internal/burrow/llm/streaming.go:102-173 | each payload emits its text first, then the calls of the turn it finishes, then the finish, and moves the state accordingly; only malformed JSON is an error |
| Accumulator.OpenAIStreamAccumulator.MergeDeltas | internal/burrow/llm/streaming.go:138-151 | the fragment loop accumulates as the function does |
| Accumulator.OpenAIStreamAccumulator.EmitCalls | internal/burrow/llm/streaming.go:155-160 | the range over the map emits each call once, in some order |
| OpenAIStream.Forward | internal/burrow/llm/providers/openai.go:127-140 | the provider's loop forwards what the accumulator emits for each event, skips what does not decode, and stops at the end marker |
| OpenAIStream.BrokenConnectionIsSilent | internal/burrow/llm/providers/openai.go:133-136 | a connection that breaks gives exactly the chunks of one that ends in good order |
| OpenAIStream.ForwardsNoError | internal/burrow/llm/providers/openai.go:127-140 | no response body ever yields an error chunk |
| OpenAIStream.BrokenStreamIsDone | internal/burrow/llm/providers/openai.go:127-140 | a run whose first stream breaks off before a complete call is a done run, and the client gets exactly the text received |
| OpenAIStream.StreamAccounts | internal/burrow/llm/providers/openai.go:127-140 | for every response body: every call begun is forwarded if and only if no fragment is left open, and forwarded and open arguments are all those received |
| OpenAIStream.StreamText | internal/burrow/llm/providers/openai.go:127-140 | for every response body the forwarded text is the text of its payloads in order, and finishes, usages and the end come through one by one |
| OpenAIStream.PayloadsEndAtMarker | internal/burrow/llm/providers/openai.go:127-140 | the accumulator sees the decoded data up to the first end marker and nothing after |
| Anthropic.DecodeBlock | internal/burrow/llm/providers/anthropic.go:170-220 | a block, however fragmented, decodes to itself, whatever the block before left behind, and leaves no id |
| Anthropic.DecodeInvertsEncoding | internal/burrow/llm/providers/anthropic.go:140-145 | a stream of blocks decodes block by block, in order |
| Anthropic.MessageIsDecoded | internal/burrow/llm/providers/anthropic.go:151-248 | for every message the decoded text is the blocks' text, the decoded calls are the tool blocks with their full input, and the last chunk is done |
| Anthropic.NoToolBlockIsLostIff | internal/burrow/llm/providers/anthropic.go:205-220 | for every message and fragmentation the decoded calls are all its tool blocks if and only if every one has an id |
| Anthropic.TextIsForwarded | internal/burrow/llm/providers/anthropic.go:186-203 | for every list of events, well formed or not, all text comes out in order and unchanged |
| Anthropic.ErrorsAreForwarded | internal/burrow/llm/providers/anthropic.go:243-244 | for every list of events all errors come out in order and unchanged |
| Anthropic.StopReasonsAreForwarded | internal/burrow/llm/providers/anthropic.go:222-238 | for every list of events all stop reasons come out in order and unchanged |
| Anthropic.StopsAreForwarded | internal/burrow/llm/providers/anthropic.go:240-241 | for every list of events each message stop gives exactly one end |
| Anthropic.UsagesAreForwarded | internal/burrow/llm/providers/anthropic.go:151-168 | for every list of events each count of input tokens gives exactly one usage |
| AnthropicStream.ErrorEventFailsRun | internal/burrow/llm/providers/anthropic.go:243-244 | an error event in the first stream fails the run with the provider's data, after the text that came before it, and no call of that stream is executed |
| Anthropic.EventDecoder.ParseEvent | internal/burrow/llm/providers/anthropic.go:151-248 | one event updates the three variables and emits at most one chunk, as Step says |
| Anthropic.EventDecoder.Forward | internal/burrow/llm/providers/anthropic.go:140-145 | the forwarding loop emits the decoding of the whole event stream |
| Lines.ScanResumes | web/src/lib/api.ts:306-308 | splitting into lines may stop anywhere and resume from the unterminated rest |
| Sse.PrintThenParse | internal/burrow/llm/streaming.go:38-72 | parsing a printed list of events gives it back, for any mixture of LF and CRLF, and a read error after it comes last as an error event |
| Sse.AgreesWithStandardIff | internal/burrow/llm/streaming.go:46-71 | for all lines free of CR and LF, and any unterminated rest, the parser sees the types and data of section 9.2.6 of the WHATWG HTML standard if and only if every block has no data field, or one, spaced and not empty, whose type the carried event name does not change |
| Sse.RegularIsAgreeable | internal/burrow/llm/streaming.go:54-71 | streams with one spaced, non-empty data line per block and spaced event lines agree |
| Sse.DataLinesAreNotJoined | internal/burrow/llm/streaming.go:65-66 | of two data lines the parser keeps the last where the standard joins them |
| Sse.EventNameLeaks | internal/burrow/llm/streaming.go:56-63 | an event name without data is given to the next event where the standard forgets it |
| Sse.EmptyDataIsLost | internal/burrow/llm/streaming.go:57 | an empty data line sends nothing where the standard dispatches an empty message |
| Sse.UnspacedDataIsLost | internal/burrow/llm/streaming.go:65-66 | a data line without the space sends nothing where the standard dispatches it |
| Sse.UnspacedEventIsLost | internal/burrow/llm/streaming.go:67-68 | an event line without the space is ignored where the standard takes its name |
| Sse.LoneCRIsData | internal/burrow/llm/streaming.go:54 | a CR alone ends a line for the standard and is part of the data for the parser |
| Sse.ExtraCREndsBlock | internal/burrow/llm/streaming.go:54 | of several CRs before LF the standard makes an empty line, which dispatches, and the parser trims them |
| Sse.SSEParser.ReadString | internal/burrow/llm/streaming.go:46 | reading a line consumes exactly one terminated line, or the unterminated rest at the end |
| Sse.SSEParser.HandleLine | internal/burrow/llm/streaming.go:56-71 | one trimmed line sends the event, sets a field, or is ignored, as Feed says |
| Sse.SSEParser.Parse | internal/burrow/llm/streaming.go:32-76 | the parse loop sends the events of the whole body, and an error event if reading it failed |
| Gateway.WriteStream | internal/riverbank/handlers.go:259-266 | the writing loop produces one data line per output chunk and then the end marker |
| Gateway.TakeLines | web/src/lib/api.ts:310-328 | the loop over the complete lines of a read yields their contents and stops at the end marker |
| Gateway.StreamChat | web/src/lib/api.ts:302-329 | the buffered reader yields the same for every way of cutting the response into reads |
| Gateway.ReaderInvertsWriter | internal/riverbank/handlers.go:2206-2241 | for every output the reader yields exactly the non-empty text contents in order, then one end marker, and nothing after |
| Gateway.EventStreamTellsOutput | internal/riverbank/handlers.go:2206-2241 | a client that parses the response as an event stream gets one event for every chunk, which decodes to that chunk, errors included, and then the end marker |
| Gateway.StreamThrough | web/src/lib/api.ts:302-329 | writer and reader composed over any slicing of the text yield the contents and one end marker |
| Gateway.BrokenConnectionYieldsPrefix | web/src/lib/api.ts:302-329 | a response cut off anywhere yields a prefix of the whole |
| Gateway.FinishedMeansComplete | web/src/lib/api.ts:313-316 | the end marker is yielded if and only if the response arrived up to the line feed after it |
| Gateway.BrowserShowsTranscript | web/src/lib/api.ts:302-329 | on a done run the browser shows exactly the transcript's text |
| Gateway.FailureLooksDone | web/src/lib/api.ts:313-325 | a failed run yields to the browser exactly what a done run with the same text yields |
| Herd.HandleIsInOnePlace | internal/burrow/herd/manager.go:60-211 | in every interleaving each handle ever spawned is in exactly one of: the map, one StopAll, closed |
| Herd.TakenByOne | internal/burrow/herd/manager.go:195-211 | no two StopAll runs, and no two places of one, hold the same handle |
| Herd.ChannelIsClosedAtMostOnce | internal/burrow/herd/manager.go:163-209 | no result channel is ever closed twice |
| Herd.ClosingIsSafe | internal/burrow/herd/manager.go:149-210 | what a StopAll is about to close is an open channel, and so is what a Stop would close |
| Herd.FinishedSweepClosedAll | internal/burrow/herd/manager.go:195-211 | when a StopAll is done, every handle it found in the map is closed and gone |
| Herd.FoundHandleIsOpen | internal/burrow/herd/manager.go:136-146 | a handle found by slug is a running child of the parent with an open channel |
| Herd.SpawnedIsRunning | internal/burrow/herd/manager.go:60-98 | after a spawn the agent is in the map, can be found by parent and slug, and its channel is open; a refused spawn changes nothing |
| Herd.StaysRunningIff | internal/burrow/herd/manager.go:60-211 | in every continuation a running agent stays exactly as it is until it is stopped or a StopAll begins, and then it is out of the map for good |
| Herd.StoppedIsClosed | internal/burrow/herd/manager.go:149-166 | a stopped agent is closed and out of the map, and the others are as they were |
| Herd.TakenAllWait | internal/burrow/herd/manager.go:195-202 | when a StopAll begins the map is empty and every agent that was in it waits for this StopAll |
| Herd.SweepCloses | internal/burrow/herd/manager.go:204-210 | as many turns of the loop as a StopAll has handles left close all of them |
| Herd.StopAllClosesAll | internal/burrow/herd/manager.go:195-211 | a StopAll that runs to its end closes every agent that was in the map |
| Herd.Manager.SpawnAgent | internal/burrow/herd/manager.go:60-98 | spawning puts a running handle with an open channel into the map under its id, or changes nothing when the factory fails |
| Herd.Manager.StopAgent | internal/burrow/herd/manager.go:149-166 | stopping closes and removes a handle in the map, and otherwise changes nothing |
| Herd.Manager.BeginStopAll | internal/burrow/herd/manager.go:196-202 | the critical section takes every handle of the map once and leaves it empty |
| Herd.Manager.CloseOne | internal/burrow/herd/manager.go:204-210 | one turn of the loop closes the next handle taken |
| Herd.Manager.FindBySlug | internal/burrow/herd/manager.go:136-146 | the search returns a matching running handle if and only if there is one |
| Workflow.ExecuteSequential | internal/burrow/herd/workflow.go:84-113 | the results are those of the agents up to and including the first failure, each prompted with the non-empty output before it |
| Workflow.SequentialIsDetermined | internal/burrow/herd/workflow.go:84-113 | that specification has exactly one outcome |
| Workflow.SequentialPrompts | internal/burrow/herd/workflow.go:90-109 | each agent is given its task, preceded by what the agent before it put out unless that was nothing; its result reports that delegation, and the run goes on exactly if it did not fail |
| Workflow.ParallelResults | internal/burrow/herd/workflow.go:116-157 | in every interleaving result i is agent i's, and the overall error is set exactly when some agent failed, to such an agent's error |
| Workflow.ParallelCanFinish | internal/burrow/herd/workflow.go:125-150 | an unfinished goroutine can always move |
| Workflow.ParallelFinishes | internal/burrow/herd/workflow.go:125-150 | from every reachable state of the fan-out some continuation ends all goroutines |
| Workflow.ParallelRun.DelegateReturned | internal/burrow/herd/workflow.go:130-136 | the return of the delegation is the Return action |
| Workflow.ParallelRun.NoteError | internal/burrow/herd/workflow.go:137-141 | noting the first error is the Note action |
| Workflow.ParallelRun.StoreResult | internal/burrow/herd/workflow.go:144-146 | storing the result is the Store action |
| Workflow.SupervisorResults | internal/burrow/herd/workflow.go:187-221 | in every order of the workers the supervisor's result comes first, then each worker's exactly once |
| Workflow.SupervisorIsToldAll | internal/burrow/herd/workflow.go:169-176 | the supervisor is told its own task, one line with slug and role for every worker in order, and the original task |
| Workflow.WorkerIsToldPlan | internal/burrow/herd/workflow.go:201-212 | each worker is told the plan, its role and its task, and its result reports that delegation |
| Workflow.ExecuteSupervisor | internal/burrow/herd/workflow.go:161-222 | fewer than two agents are refused, a failed supervisor is reported, otherwise the results are the supervisor's and each worker's |
| Workflow.BuildPrompt | internal/burrow/herd/workflow.go:169-176 | the supervisor's prompt lists every worker with its role |
| Exporter.BatchContents | internal/wetland/footprint/logger.go:78-88 | a batch holds exactly the newest 200 events beyond the cursor, newest first, each once |
| Exporter.RecordedIsInLog | internal/wetland/footprint/logger.go:24 | a recorded event is in the log, and nothing else changes |
| Exporter.AcknowledgedTickSends | internal/wetland/footprint/exporter.go:59-111 | an acknowledged tick brings the cursor up to the newest event and sends everything new among the newest 200 and nothing else; any other tick changes nothing |
| Exporter.CursorIsMonotone | internal/wetland/footprint/exporter.go:107-111 | the cursor never moves back |
| Exporter.NoEventSentTwice | internal/wetland/footprint/exporter.go:59-115 | no event is in two acknowledged batches, or twice in one |
| Exporter.SentIsPrefixIff | internal/wetland/footprint/exporter.go:59-115 | the acknowledged events are exactly those up to the cursor if and only if no acknowledged tick found more than 200 new events and no event became visible behind the cursor |
| Exporter.AuditExporter.Export | internal/wetland/footprint/exporter.go:59-115 | one tick that is acknowledged sends everything new among the newest 200 events and moves the cursor to the newest; otherwise nothing changes |
| Shell.QuotedStringIsOneWord | internal/burrow/nibble/tools_exec.go:153-155 | wherever a word may start, a quoted string is read back whole by the POSIX lexer |
| Shell.BashRunsTheScript | internal/burrow/nibble/tools_exec.go:131-141 | the shell splits the bash tool's command into exactly bash, -c and the script; an empty script is refused |
| Shell.QuotedArgumentsAreRecovered | internal/burrow/nibble/tools_exec.go:153-155 | a list of quoted arguments is read back as exactly that list |

## Left out

- SQL text, Redis and Postgres drivers, HTTP, WebSocket, authentication, telemetry, sandboxes and tool bodies: only the tables, keys and outputs they expose are modelled.
- Wrap-around of the MCP id counter after 2^63 calls: ids are unbounded here, and their uniqueness is proved for unbounded ids.
- JSON encoding and decoding: an arbitrary codec or an already decoded payload; a JSON-RPC error response appears as a response whose result is empty, and decoding the result into the caller's type is not modelled.
- Floating point: scores and importances are real numbers, and the exponential decay is an arbitrary function.
- Database errors in the middle of a consolidation and writers running beside it.
- RateLimit.AdmissionBounds: counts admissions at the instant of their increment and only those the limiter counted; requests let through on a Redis error are the stages FailedOpen and Bypassed and are not counted. Redis errors of EXPIRE are covered.
- The Retry-After and X-RateLimit headers.
- Token usage accounting in the pipeline, memory recall, skill loading, tool policy and session persistence: stages before the LLM call are one outcome, and the persister, which never fails a run, is the identity on the output.
- The ExecutePrompt checks that agent and tenant ids are UUIDs.
- What other goroutines still do between a panic and the end of the process; a crashed run's channel is closed without a terminal chunk.
- Cancellation of the contexts of the pipeline and of the SSE parser.
- Blocking on the pipeline's output channel, whose reader is assumed to keep reading.
- UTF-8: the browser's reader works on characters, so a read that ends inside a character's encoding is not modelled.
- The `id` and `retry` fields and the byte order mark in the comparison with the WHATWG standard.
- Pathname expansion, variables and operators in the POSIX lexer: an unquoted character with such a meaning stops it; a NUL character cannot reach a shell.
- Herd.Manager.FindBySlug: a handle it returned may be closed before the caller uses it, because lookup and use are separate critical sections; for the same reason two children with one slug are possible.
- Uniqueness of UUIDs, which is assumed.
- Failover between providers, the Google and Ollama providers, channels, scheduling and the rest of the front end.
