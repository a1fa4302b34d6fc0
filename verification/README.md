# antwort, modelled and verified in Dafny

antwort is a gateway that speaks the OpenResponses protocol to clients and Chat
Completions to model backends. This project models the parts of it that are
algorithms or protocols in their own right, and proves what they promise:

- **Streaming.** Chat Completions chunks become provider events (`ChatStream`), these
  become numbered stream events (`StreamEngine`, `StreamRun`), and these become
  server-sent events (`Sse`). `StreamProtocol` and `StreamOutput` hold for every
  sequence of provider events and every way the loop can end, `StreamReference` gives every
  event of a stream without any state, `StreamArguments` and `ChunkCalls` follow each tool
  call to the client, and `ChunkInvariance` compares the final response of a stream with
  the non-streaming translation of the same message; `StreamWire` follows a streamed
  response to the client that parses it. The framing is that of section 9.2.6 of the
  WHATWG HTML Living Standard.
- **Resilience.** The lock-free circuit breaker, both as an object and as atomic steps of
  any number of requests (`Circuit`); the backoff in wrapping 64-bit arithmetic
  (`Backoff`); the retry loop on top of them (`Retry`).
- **Background responses.** The in-memory store as a map with a linked list
  (`MemoryStore`), what its operations mean (`Store`), its listings and paging
  (`Paging`, `PagingClient`), and the runs of racing workers, stale detection, cancellation and clean-up
  (`Background`).
- **The agentic loop** with its tool filter and tool executors (`AgenticLoop`), and what a
  run puts into the response and the conversation, slot by slot (`AgenticResults`).
- **Single algorithms.** Citation matching by longest common substring over UTF-8 text,
  section 3 of RFC 3629 (`Annotations`, `Utf8`), role expansion (`Roles`), conversation
  history (`History`), scatter-gather search (`TopK`, `Sorting`), the text chunker
  (`Chunker`) and the rate limiter (`RateLimit`).

Code that updates state in place is a class with the source's fields and methods; each
method is proved against a function or a predicate on values, and the lemmas are about
these. Clocks, random jitter, item ids, cancellation, the replies of providers and the
outcomes of tools are parameters, so every statement holds for all of them. Goroutines
are interleaved atomic steps; iteration over a Go map is an arbitrary choice of the next
key. Strings are sequences of characters except in `Annotations` and `Utf8`, which work
on bytes; integers are unbounded except in `Backoff`.

Run `dafny verify dfyconfig.toml`.

## Findings

Places where the code does less than its comments or its sibling code suggest; each is a
theorem of the model.

- `computeBackoff` checks for overflow only in part. It is exact whenever
  base * max <= 2^63; a configuration that validation accepts can break it, and exactly
  which ones do is told from base and max alone (`Backoff.BackoffIsExact`,
  `Backoff.ValidConfigMayWrap`, `Backoff.ConfigurationExactlyWhen`).
- The rate limiter's comment speaks of a sliding window; it counts in fixed windows and
  admits up to twice the rate, less one, in some minutes. It does what a sliding window
  would at one call a minute and at no other rate (`RateLimit.TwiceTheRateAttained`,
  `RateLimit.SlidesExactlyWhen`).
- A streamed chunk with tool calls loses its text and reasoning, and the finish chunk loses
  its text, reasoning and tool calls; these are the only losses
  (`ChunkInvariance.ChunkingInvariance`, with examples in `ChunkInvariance.MixedChunkLosesText`,
  `ChunkInvariance.FinishChunkLosesText` and `ChunkInvariance.FinishChunkLosesArguments`).
  Usage sent in a chunk after the finish chunk is never seen (`ChunkInvariance.StreamStops`),
  and in a chunk before it ends the stream (`ChunkInvariance.UsageChunkEndsStream`). For
  `content_filter` the stream says incomplete where the plain response says failed.
- The message is said to be done at output index 0, "always" according to the comment, but
  it is announced and its text streamed at another index when text comes after a call has
  begun or after reasoning has ended, and at no other time
  (`StreamReference.MessageAtZeroExactlyWhen`, with `StreamReference.ReasoningMovesMessage`).
- When tool_choice is "none" and the provider calls a tool all the same, the response is
  completed and holds function calls without an answer; that happens under no other
  request (`AgenticLoop.ForgetsExactlyWhen`).

## Model

| member | source | states |
|---|---|---|
| ChatStream.TranslateResponse | pkg/provider/openaicompat/response.go:10-76 | No choice means failed and empty; otherwise reasoning, text and tool calls of the first choice, in this order, empty ones left out |
| ChatStream.WholeInOrder | pkg/provider/openaicompat/response.go:36-76 | Reasoning comes before the message and the message before the calls, in their order; every item is completed, and ids are drawn in this order |
| ChatStream.Translator.TranslateChunk | pkg/provider/openaicompat/stream.go:94-212 | The events sent for a chunk and the buffers left after it, for every order in which a flush walks the buffers |
| ChatStream.Translator.FlushToolCalls | pkg/provider/openaicompat/stream.go:216-239 | One done event for each buffer, in an order that lists each key once, and no buffer left |
| ChatStream.Translator.AddToolCalls | pkg/provider/openaicompat/stream.go:147-181 | Each fragment is sent and added to the buffer of its index; only the first of an index gives id and name |
| ChatStream.ParseSSEStream | pkg/provider/openaicompat/stream.go:37-89 | Without cancellation the events are those of all chunks before [DONE], with a read error reported last unless [DONE] came; with it, those of some first chunks |
| ChatStream.PayloadsAreRead | pkg/provider/openaicompat/stream.go:37-89 | Of data lines the chunks are those of the payloads before [DONE], in order, whatever follows it |
| ChatStream.OtherLinesAreSkipped | pkg/provider/openaicompat/stream.go:37-89 | A line that is not data, or whose data does not decode, makes no difference |
| FragmentAssembly.BuffersHoldCalls | pkg/provider/openaicompat/stream.go:147-181 | After any fragments there is a buffer for an index exactly when it was mentioned, and it holds the id and name of its first fragment and the concatenated arguments of all |
| FragmentAssembly.AddsNothingExactlyWhen | pkg/provider/openaicompat/stream.go:147-181 | Fragments leave the buffers as they are if and only if they begin no call and add no arguments |
| FragmentAssembly.WalksAgree | pkg/provider/openaicompat/stream.go:216-239 | Whatever the order of a flush, each call is sent equally often |
| FragmentAssembly.SameCallsExactlyWhen | pkg/provider/openaicompat/stream.go:147-181 | Buffers before and after some fragments, walked in any orders, give every call equally often if and only if the fragments begin no call and add no arguments |
| ChunkInvariance.BodyTells | pkg/provider/openaicompat/stream.go:94-212 | Before the finish chunk the engine is told exactly the kept text and reasoning, of exactly the mentioned calls, and of no end |
| ChunkInvariance.FinishClearsBuffers | pkg/provider/openaicompat/stream.go:114-145 | A finish chunk leaves no call over that could be completed once more |
| ChunkInvariance.StreamStops | pkg/engine/engine.go:350-418 | The loop ends at the finish chunk with its status and usage, whatever events follow |
| ChunkInvariance.KeptExactlyWhen | pkg/provider/openaicompat/stream.go:114-199 | What is kept of text or reasoning is never longer than the whole, and is the whole exactly when no skimmed chunk carries any |
| ChunkInvariance.ToolCallsExactlyWhen | pkg/provider/openaicompat/stream.go:114-181 | The streamed calls are those of the message, index by index, if and only if the finish chunk begins none and adds no arguments |
| ChunkInvariance.ChunkingInvariance | pkg/engine/engine.go:350-455 | However a completion is cut, the last event of its stream completes the response, or says it is incomplete for length and content_filter, with the usage of the finish chunk if it is wanted; its output has the reasoning and the text of the non-streaming response exactly when no chunk that finishes or has tool calls carries any, and every call as often exactly when the finish chunk begins none and adds no arguments; the statuses differ just for content_filter |
| ChunkInvariance.ChannelStarts | pkg/provider/openaicompat/stream.go:37-89 | What the parser sends starts with the events of any first chunks on the lines, whatever comes after them |
| ChunkInvariance.TranslateBothWays | pkg/provider/openaicompat/stream.go:37-89 | For all lines whose chunks start with one completion, what the parser sends and what TranslateResponse makes of the message compare as in ChunkingInvariance, whatever lines or read error follow |
| ChunkInvariance.UsageChunkEndsStream | pkg/provider/openaicompat/stream.go:95-109 | A chunk with usage and no choice ends the stream wherever it comes: the last event completes the response with the text and reasoning kept so far and no call |
| ChunkInvariance.WholeSays | pkg/provider/openaicompat/response.go:36-73 | The non-streaming response to the assembled message says its reasoning, its text and each call as often as it occurs |
| ChunkInvariance.StatusesAgree | pkg/provider/openaicompat/response.go:83-97 | length is incomplete in both mappings of a finish reason; content_filter is incomplete in a stream and failed in a plain response; every other reason is a completion in both |
| ChunkInvariance.MixedChunkLosesText | pkg/provider/openaicompat/stream.go:147-181 | Some completions lose text, and some reasoning, that is beside a tool call |
| ChunkInvariance.FinishChunkLosesText | pkg/provider/openaicompat/stream.go:114-145 | Some lose the text, and some the reasoning, of the finish chunk |
| ChunkInvariance.FinishChunkLosesArguments | pkg/provider/openaicompat/stream.go:114-145 | Arguments that the finish chunk adds to a call already begun are lost: some completion has other buffers than its fragments make up, and a streamed response that never has the calls of the plain one as often |
| StreamEvents.StreamState.NextSeq | pkg/engine/events.go:36-40 | Gives the current number and moves to the next |
| StreamEvents.StreamState.MapTextDelta | pkg/engine/events.go:45-75 | The first text after reasoning closes the reasoning item; an empty delta only marks the start |
| StreamEvents.StreamState.MapTextDone | pkg/engine/events.go:78-93 | Text is done only if it had started |
| StreamEvents.StreamState.MapToolCallDelta | pkg/engine/events.go:98-147 | The first delta of an index announces a new item under a new id and index; every non-empty delta goes to that item |
| StreamEvents.StreamState.MapToolCallDone | pkg/engine/events.go:150-185 | Only a known index is completed, under the id it was announced with |
| StreamEvents.StreamState.MapReasoningDelta | pkg/engine/events.go:189-228 | The first non-empty delta announces the reasoning item; all of them accumulate |
| StreamEvents.StreamState.MapReasoningDone | pkg/engine/events.go:232-268 | Reasoning is completed once, with all that was accumulated so far |
| StreamEvents.StreamState.MapProviderEvent | pkg/engine/events.go:273-297 | Each kind of provider event is mapped by its function; done and error events map to nothing |
| StreamRun.Collect | pkg/engine/engine.go:423-436 | The text grows by the text deltas written, and the calls by the completed function call items |
| StreamRun.EmitItemLifecycleStart | pkg/engine/engine.go:459-479 | The message item is announced and then its text part, under the next two numbers |
| StreamRun.EmitStreamComplete | pkg/engine/engine.go:482-554 | Part and message are closed if they were announced; the terminal event has reasoning, message and calls, in this order |
| StreamRun.ConsumeEvents | pkg/engine/engine.go:350-438 | The loop takes exactly the events before the first cancellation, error or done event |
| StreamRun.HandleStreaming | pkg/engine/engine.go:293-455 | What is written is what the consumed events amount to, followed by the closing events; what these are is told by LastEventSays and EveryStreamIsTold |
| StreamProtocol.ProperMeans | pkg/engine/events.go:36-40 | In a proper log event i has number i, only the first two open it, only the last may be terminal, an item is announced once and before every event about it, and tool call and reasoning events carry the index it was announced with |
| StreamProtocol.StepLinked | pkg/engine/events.go:273-297 | Every mapped provider event keeps the log proper and the ids of the state announced |
| StreamProtocol.AfterLinked | pkg/engine/engine.go:350-438 | So does every sequence of provider events |
| StreamOutput.StepContents | pkg/engine/events.go:45-268 | One step emits just the text and the reasoning it was given, and completes just a call that had begun |
| StreamOutput.AfterFaithful | pkg/engine/engine.go:350-438 | After any provider events the accumulated text and reasoning are the concatenation of the deltas received and of the deltas written, and the collected calls are those completed after they had begun |
| StreamOutput.EveryStreamIsProper | pkg/engine/engine.go:293-583 | For every provider event sequence and every exit the written events are proper, the last alone is terminal, and content part done holds exactly the text streamed |
| StreamOutput.LastEventSays | pkg/engine/engine.go:350-583 | The loop stops at the first event before which cancellation is seen, or that is an error or the done event; the last event written is cancelled, failed with that error, incomplete when the channel closed early, or of the kind the done event tells; a finished response has, up to ids, just the reasoning, text and completed calls of the events before, the usage of the done event if it is wanted, and a reason exactly when incomplete |
| StreamOutput.FinalOutputSays | pkg/engine/engine.go:482-535 | Up to ids the final output is reasoning if there was any, one message if text was seen, and the completed calls in order |
| StreamOutput.FinalOutputAnnounced | pkg/engine/engine.go:482-535 | Every item of the final response was announced to the client, and each but the reasoning was written as done just as it is in the response |
| StreamReference.AfterIsTold | pkg/engine/events.go:45-268 | The mapping with its state refines a reference without any: after all provider events, each event written, with its item id, output index and content, and each field of the state, is given by what the provider has sent |
| StreamReference.EveryStreamIsTold | pkg/engine/engine.go:293-583 | Every stream is numbered from 0 and is, event by event, what the reference says; only a finished one ends its message; its last event is as in LastEventSays |
| StreamReference.MessageAtZeroExactlyWhen | pkg/engine/engine.go:496-508 | Everything written about the message is at output index 0, at which it is said to be done, if and only if no text comes after a call has begun or reasoning has ended |
| StreamArguments.AfterArguments | pkg/engine/events.go:98-147 | After any provider events different calls have different items, and the argument deltas written for an item are together those that the provider sent for its index |
| ChunkArguments.DeltasAddUp | pkg/engine/events.go:98-185 | A client that adds up the argument deltas of a streamed completion has the arguments that each call is completed with |
| ChunkCalls.EveryCallIsHeard | pkg/engine/events.go:98-185 | Each call that begins before the finish chunk is announced with the id and name of the whole call, gets its arguments by deltas, and is done with the same id and name and all these arguments, under one item id |
| ChunkCalls.EveryFragmentIsSent | pkg/provider/openaicompat/stream.go:147-181 | Each fragment is one delta of its index: with the name and the id of its call when it begins it, else with the id of the first fragment alone |
| ChunkCalls.PlainDeltaIsSent | pkg/provider/openaicompat/stream.go:183-212 | A delta without tool calls is its reasoning, then its text; an empty text delta stands for one that only names a role |
| StreamWire.ProperIsComplete | pkg/transport/http/sse.go:71-121 | A proper finished log followed by [DONE] has the shape of the log of a completed writer |
| StreamWire.WriteEvents | pkg/transport/http/sse.go:71-121 | Of a proper finished log, written to an idle writer with one WriteEvent call for each event, every event is accepted; the writer ends completed with all of them and [DONE], and the callback has heard the id of the response once |
| StreamWire.ClientHearsTheStream | pkg/transport/http/sse.go:71-121 | A client that parses the bytes of a streamed response hears every event in order and then [DONE], however the response ended |
| StreamWire.ClientHearsTheWriter | pkg/provider/responses/stream.go:18-56 | A client that parses the output of that writer hears all its events and then [DONE] |
| StreamWire.OpeningNames | pkg/api/events.go:12-55 | The names on the wire of the events that open and close a response or an item |
| StreamWire.CallAndReasoningNames | pkg/api/events.go:12-40 | The names on the wire of the events about arguments and reasoning |
| StreamWire.ContentNames | pkg/api/events.go:12-40 | The names on the wire of the events about text and content parts |
| Sse.SseResponseWriter.WriteEvent | pkg/transport/http/sse.go:71-121 | Accepted unless completed; a terminal event completes the writer and is followed by [DONE]; the id is reported at most once |
| Sse.SseResponseWriter.WriteResponse | pkg/transport/http/sse.go:125-150 | Accepted only on an idle writer, which it completes |
| Sse.SseResponseWriter.HasStartedStreaming | pkg/transport/http/sse.go:158-162 | True exactly when an event has been written |
| Sse.DoneClosesTheStream | pkg/transport/http/sse.go:71-121 | Over all calls on one writer, [DONE] comes at most once, last, and right after the only terminal event |
| Sse.TerminalByName | pkg/transport/http/sse.go:25-32 | The terminal types are exactly those with the six names of the table |
| Sse.PrintedAs | pkg/transport/http/sse.go:100-121 | The exact text of an event, of the end of a stream, and of a JSON body |
| Sse.ParseSSEStream | pkg/provider/responses/stream.go:18-56 | The loop hands on exactly the events of the line-by-line definition |
| Sse.RoundTrip | pkg/provider/responses/stream.go:18-56 | Parsing printed events gives them back in order, whatever text follows |
| Sse.RoundTripExactlyWhen | pkg/provider/responses/stream.go:18-56 | A sequence of events survives printing and parsing if and only if every type is nonempty, no type or data has a line feed or ends in a carriage return, and no data is [DONE] |
| Sse.ReaderHearsTheWriter | pkg/transport/http/sse.go:71-121 | A reader of all that a streaming writer printed hears its events, and [DONE] just when the writer is completed |
| Circuit.CircuitBreaker.Allow | pkg/provider/resilience/circuit.go:60-88 | Alone on the breaker: closed admits, half-open refuses, open admits one probe once the timeout is over and becomes half-open |
| Circuit.CircuitBreaker.RecordSuccess | pkg/provider/resilience/circuit.go:91-97 | Clears the count and closes a half-open breaker |
| Circuit.CircuitBreaker.RecordFailure | pkg/provider/resilience/circuit.go:100-115 | Counts while closed and opens at the threshold; reopens a half-open breaker |
| Circuit.ClosedBelowThreshold | pkg/provider/resilience/circuit.go:60-115 | With fewer failures in a row it stays closed and admits, and a success starts the count again |
| Circuit.OpenAtThreshold | pkg/provider/resilience/circuit.go:100-115 | Failures that follow each other open the breaker when they reach the threshold, and later ones put off the probe |
| Circuit.OneProbeDecides | pkg/provider/resilience/circuit.go:60-115 | An open breaker refuses until the timeout is over since the last failure, then lets one probe through and refuses all others; success closes it with no failure counted, failure opens it anew from its own time |
| CircuitRuns.HalfOpenNeverStranded | pkg/provider/resilience/circuit.go:60-115 | Under every interleaving, while the breaker is half-open the winner of the latest swap has its outcome still to record, and entries less exits of half-open is 1 exactly then and else 0 |
| CircuitRuns.HalfOpenEnds | pkg/provider/resilience/resilience.go:80-106 | Half-open ends within four steps of the winner, whatever the others do |
| CircuitRuns.OneProbe | pkg/provider/resilience/circuit.go:60-88 | No request is admitted while half-open, and the swap into half-open admits its winner alone |
| CircuitRuns.AllowAlone | pkg/provider/resilience/circuit.go:60-88 | The steps of Allow without interleaving are the method |
| CircuitRuns.RecordSuccessAlone | pkg/provider/resilience/circuit.go:91-97 | The same for RecordSuccess |
| CircuitRuns.RecordFailureAlone | pkg/provider/resilience/circuit.go:100-115 | The same for RecordFailure |
| CircuitRuns.OutcomeAlone | pkg/provider/resilience/resilience.go:95-223 | A call whose outcome is recorded without interruption leaves the breaker as the retry loop says for that outcome, and may be followed by another attempt just after a rate limit or an error that can be retried |
| Backoff.BackoffIsExact | pkg/provider/resilience/retry.go:19-42 | In wrapping 64-bit arithmetic the wait is min(base * 2^(attempt-1) + jitter, max) for every attempt, when 0 < base <= max and base * max <= 2^63 |
| Backoff.ConfigurationExactlyWhen | pkg/provider/resilience/retry.go:19-42 | Of any base <= max: every attempt and jitter gets the promised wait if and only if for each of the 63 shifts the shifted base fits in 63 bits with room for any jitter, or its wrapped value is caught by the checks, or reaches max and has that room |
| Backoff.WrappedReachesMax | pkg/provider/resilience/retry.go:26-35 | A wrap of the shifted base leaves a multiple of 2^shift, which is at least max; if it is not detected the multiple is positive, so it reaches max all the same |
| Backoff.ValidConfigMayWrap | pkg/config/validate.go:64-75 | A configuration that validation accepts, and an attempt, where the wait is not the promised one |
| Retry.ResilientProvider.Complete | pkg/provider/resilience/resilience.go:77-111 | Never the panic; the loop goes on after every attempt that the breaker admits and whose error can be retried, and ends only with a response, with the error of an attempt that is final, the last, or rate limited beyond the deadline, when the context ends during a wait, or when the breaker refuses; the sleep is exactly the sum of the waits, and the breaker exactly what the attempts make of it |
| Retry.ResilientProvider.HandleError | pkg/provider/resilience/resilience.go:155-223 | When the error is returned, when the context ends and when another attempt follows, each if and only if; the exact sleep; only retryable errors count as failures, and a rate limit or a final error on a half-open breaker closes it |
| Retry.ResilientProvider.RetryAfterWait | pkg/provider/resilience/resilience.go:228-238 | The Retry-After of the error if it has one, capped at RetryAfterMax, and the backoff if not; never longer than max(BackoffMax, RetryAfterMax) |
| Retry.WaitIsPromised | pkg/provider/resilience/retry.go:12-42 | For base * max <= 2^63 each wait is the Retry-After, capped, or min(base * 2^(attempt-1) + jitter, max) |
| Roles.ExpandRoles | pkg/auth/scope/roles.go:13-30 | Succeeds exactly when no references form a cycle and none dangles, and then gives every role exactly the scopes reachable from it, for every iteration order; the error names which of the two it was |
| Roles.Resolver.Resolve | pkg/auth/scope/roles.go:32-83 | The recursion ends, keeps the memo table sound, and an error it returns is a real cycle or a real dangling reference |
| Roles.TableIsClosure | pkg/auth/scope/roles.go:32-83 | A sound memo table holds for each role exactly what some chain of references grants |
| Roles.FullTableMeansAcyclic | pkg/auth/scope/roles.go:13-30 | If every role is in a sound table, no references form a cycle and none dangles |
| Roles.StackClosesCycle | pkg/auth/scope/roles.go:43-47 | Meeting a role that is under way closes a cycle of references |
| History.LoadConversationHistory | pkg/engine/history.go:18-74 | Ends on every store; errors exactly when the chain repeats or reaches a missing id; otherwise equals history(previous) followed by the messages of input and output |
| History.CollectChain | pkg/engine/history.go:23-48 | The walk gives the responses of the chain, newest first, or the reason why there is no end |
| History.Reverse | pkg/engine/history.go:50-53 | The in-place reversal |
| History.OutcomesExclude | pkg/engine/history.go:23-48 | A chain ends, or reaches a missing id, or repeats: never two of these |
| History.OldestFirstIsHistory | pkg/engine/history.go:50-74 | Appending the reversed chain oldest first gives the recursive history |
| History.HistoryOneMore | pkg/engine/history.go:50-74 | The newest response comes last, its input before its output |
| History.MessagesConcat | pkg/engine/history.go:55-74 | The messages of items are those of each item, in order |
| History.MessageSays | pkg/engine/history.go:79-136 | The message of each kind of item: role and first part of a message, the assistant call, the tool answer; none for reasoning and unknown items |
| Annotations.LongestCommonSubstring | pkg/engine/annotations.go:136-182 | For all valid UTF-8 texts: the byte range of the longest run of code points of a that b has too, the earliest-ending of these |
| Annotations.ScanTable | pkg/engine/annotations.go:141-168 | The two swapped rows find the best run |
| Annotations.FillRow | pkg/engine/annotations.go:152-162 | One row of the table from the row above it, and the best cell so far |
| Annotations.CellIsLongest | pkg/engine/annotations.go:152-162 | A cell is the length of the longest common run that ends there |
| Annotations.BestRangeIsShared | pkg/engine/annotations.go:136-182 | The range cuts no code point, lies in a, and its bytes occur in b |
| Annotations.SubstringMatcher.MatchSource | pkg/engine/annotations.go:63-88 | The best range if it is long enough; else the first long enough sentence of the source that occurs in the output, at its first occurrence; nothing just when there is none; on single-byte text never a sentence |
| Annotations.SubstringMatcher.SearchSentences | pkg/engine/annotations.go:75-87 | The first sentence to cite with the range of its first occurrence, or none when no sentence can be cited |
| Annotations.FallbackFindsNothing | pkg/engine/annotations.go:69-87 | On single-byte text no sentence is found that the table missed |
| Annotations.SplitSentences | pkg/engine/annotations.go:185-200 | Cut after every end mark, the pieces concatenate to the text, and the sentences are the pieces that are not a lone mark |
| Annotations.EndMarks | pkg/engine/annotations.go:189-190 | The end marks are the period, the question mark and the exclamation mark |
| Utf8.DecodeEncode | pkg/engine/annotations.go:141-142 | Decoding undoes encoding |
| Utf8.EncodedBytes | pkg/engine/annotations.go:141-142 | One byte up to 0x7F, else a lead byte that tells the length and continuation bytes |
| StoreContents.SavedCoherent | pkg/storage/memory/memory.go:103-134 | A save with a new id, with its eviction, keeps list and map together, the ids distinct, and the size within the limit |
| StoreContents.SavesKeepTheNewest | pkg/storage/memory/memory.go:103-134 | Saves alone leave exactly the last maxSize saved responses, newest first |
| StoreContents.EvictedCoherent | pkg/storage/memory/memory.go:474-483 | An eviction keeps them together and makes room for one |
| StoreContents.SavePushesOutLast | pkg/storage/memory/memory.go:103-134 | A save in a full store pushes out just the id that is behind all others in the list |
| StoreContents.RemovedCoherent | pkg/storage/memory/background.go:72-102 | So does a clean-up of any ids, and those that stay keep their order |
| StoreContents.VisibleExactlyWhen | pkg/storage/memory/memory.go:198-215 | Whom an entry is shown to: its tenant, and there its owner, an administrator, or anyone if caller or entry has no owner |
| StoreContents.KeptOutOf | pkg/storage/memory/background.go:28-126 | Which background responses are claimed, found stale and cleaned up, and that deleted ones are neither of the first two |
| ResponseState.TerminalIsFinal | pkg/api/state.go:8-30 | The terminal statuses are exactly those without a way out, and no status follows itself |
| ResponseState.WaysInto | pkg/api/state.go:8-30 | The ways into each status: work ends only when it has begun, unless it is cancelled |
| MemoryStore.LinkedAdd | pkg/storage/memory/memory.go:122-128 | A new entry with its own element in front keeps every entry pointing to its own element |
| MemoryStore.LinkedRemove | pkg/storage/memory/memory.go:474-483 | So does taking an element out together with its entry |
| MemoryStore.Store.SaveResponse | pkg/storage/memory/memory.go:103-134 | A duplicate id changes nothing; otherwise the oldest is evicted if the store is full and the response is newest |
| MemoryStore.Store.EvictOldest | pkg/storage/memory/memory.go:474-483 | The last element of the list goes, with its entry |
| MemoryStore.Store.UpdateResponse | pkg/storage/memory/memory.go:233-265 | An unknown id or a transition that is not allowed changes nothing; otherwise each of the six fields is the given value, or the old one if none is given, and no other field, entry or position changes |
| MemoryStore.Store.DeleteResponse | pkg/storage/memory/memory.go:198-230 | Marks the entry deleted exactly when the caller may see it |
| MemoryStore.Store.SaveBackgroundRequest | pkg/storage/memory/background.go:13-24 | Stores the request with a known entry |
| MemoryStore.Store.ClaimQueuedResponse | pkg/storage/memory/background.go:28-68 | Claims a queued background response than which none was created earlier: in progress, with its worker and a first heartbeat, and nothing else changed; or finds that there is none |
| MemoryStore.Store.CleanupExpired | pkg/storage/memory/background.go:72-102 | Removes at most batchSize entries, all terminal, background and older than the cutoff, and stops short of it only when none is left |
| MemoryStore.Store.FindStaleResponses | pkg/storage/memory/background.go:106-126 | Exactly the claimed background responses without a recent heartbeat |
| MemoryStore.Store.ListResponses | pkg/storage/memory/memory.go:279-389 | The page, for the cursor and the clamped limit, of a sorted listing of exactly the matching responses |
| MemoryStore.Store.Paginate | pkg/storage/memory/memory.go:332-388 | Cursor, limit and has_more as cut from the listing |
| Paging.ListingUnique | pkg/storage/memory/memory.go:317-330 | Ties are broken by id, so every sort gives the same listing |
| Paging.ListingIsOrdered | pkg/storage/memory/memory.go:317-330 | By time of creation in the order asked for, and by id among equals |
| Paging.ListedExactlyWhen | pkg/storage/memory/memory.go:279-316 | A response is listed exactly when it is not deleted, the caller may see it and each given filter lets it through |
| Paging.DeletedIsUnlisted | pkg/storage/memory/memory.go:279-316 | A response that its caller deleted is in no listing of anyone |
| Paging.ListingsAgree | pkg/storage/memory/memory.go:279-330 | Any two listings of the same store for the same caller and filters are equal |
| Paging.NextPage | pkg/storage/memory/memory.go:332-388 | The page after LastID starts where this one ends |
| Paging.RestIsCut | pkg/storage/memory/memory.go:332-356 | A cursor leaves what comes right after the after id, or what comes before the before id, or everything; nothing if there is no such id |
| Paging.PageSays | pkg/storage/memory/memory.go:332-388 | A page is the start of what its cursor leaves, at most the limit (20 by default, 100 at most), filled if more are left, and says whether they are, and its ends |
| Paging.ForwardPagingIsComplete | pkg/storage/memory/memory.go:332-388 | On one listing, following after = LastID while HasMore ends and yields every matching response exactly once, in order, for every limit |
| PagingClient.FollowPages | pkg/storage/memory/memory.go:279-389 | A client that calls ListResponses again with after = LastID while HasMore is true, on a store that does not change, ends and has read every matching response exactly once, in order, for every limit |
| PagingClient.CutFromOneListing | pkg/storage/memory/memory.go:279-389 | However each call collects and sorts, its page is the page of the one listing |
| Background.RunKeepsInv | pkg/engine/background.go:107-356 | Every run of workers, stale detection, cancelling users, deletion, eviction and clean-up keeps the store coherent, its list in the order of submission, and each status explained by its past |
| Background.ListIsSubmissionOrder | pkg/storage/memory/memory.go:122-128 | After every such run the store lists the ids it holds in the order in which the run submitted them, newest first |
| Background.FirstInFirstOut | pkg/storage/memory/memory.go:103-134 | After every such run a submission to a full store pushes out just the response that was submitted before every other one held |
| Background.OnceOnly | pkg/engine/background.go:107-203 | In every run a response is claimed at most once and gets at most one terminal status, and no two workers process it |
| Background.TerminalForever | pkg/storage/memory/memory.go:233-265 | Once terminal, status, output, error, usage and completion time never change; once removed, the id never returns |
| Background.FinishMeans | pkg/engine/background.go:143-200 | A worker that finishes a response in progress leaves just what it produced, or why it failed, or that it was interrupted; one that is over already stays as it is |
| Background.MarksMean | pkg/engine/background.go:206-352 | A response found stale or in flight at shutdown fails with the reason, a cancellation changes the status alone, a heartbeat its time alone |
| Background.ProducedForever | pkg/engine/background.go:272-330 | Whatever races follow, what was produced is there for as long as the response is held: completed, with its output, usage and completion time |
| Background.ProcessedWasClaimed | pkg/storage/memory/background.go:28-68 | A background response in progress, completed or failed was claimed once, by the worker it names |
| AgenticLoop.RunAgenticLoop | pkg/engine/loop.go:21-193 | Stops at the first turn that does not go on, after one provider call a turn and at most maxTurns; the outcome is that turn's verdict and the conversation has grown by the turns before it |
| AgenticLoop.RunTurn | pkg/engine/loop.go:40-181 | A turn ends the run with its verdict and leaves the messages alone, or adds its items, results and messages |
| AgenticLoop.EveryCallAnsweredOnce | pkg/engine/loop.go:75-181 | In the output each function call is answered exactly once but for those of the last reply, and these only when the client must act or tools were forbidden; usage is the sum over the replies |
| AgenticLoop.ForgetsExactlyWhen | pkg/engine/loop.go:112-120 | No run, with any provider, tools and limits, leaves a call open without telling the client to act, if and only if the request does not forbid tools |
| AgenticLoop.RunsAlternate | pkg/engine/loop.go:171-181 | Each assistant message with calls is followed, before the next one, by tool messages that answer each of its call ids as often as it was called, and by nothing else |
| AgenticResults.EveryTurnIsTold | pkg/engine/loop.go:75-181 | Each turn that goes on has, at its place in the output and in the conversation, its reply, then in the order of the calls exactly what each tool returned, the error it raised, or that it was cancelled, and then the refusals |
| AgenticResults.EveryRunIsTold | pkg/engine/loop.go:21-193 | The first turn that does not call tools, or the turn limit, ends the run: incomplete, cancelled, with the error, with the status of the final reply, completed when calls are forbidden, or requiring action when a call has no executor; usage is the sum of the replies asked for, the output that of the turns and the last reply |
| AgenticLoop.ExecuteToolsConcurrently | pkg/engine/loop.go:584-647 | For every completion order the result of each call, in its slot, is what its tool returned, or the error it raised, or that there is none |
| AgenticLoop.ExecuteToolsSequentially | pkg/engine/loop.go:651-713 | The same one by one, where a cancelled context answers the call with an error |
| AgenticLoop.ExecutorsAgree | pkg/engine/loop.go:584-713 | Both executors give the same results exactly when cancellation makes no difference to any of them |
| AgenticLoop.ExtractToolCalls | pkg/engine/loop.go:557-569 | The calls of the function call items, in order |
| AgenticResults.CallsKeepOrder | pkg/engine/loop.go:557-569 | The calls are those of the function call items, all of them, in their order |
| AgenticLoop.HasUnhandledToolCalls | pkg/engine/loop.go:573-580 | True exactly when some call has no executor |
| AgenticLoop.MaxTurns | pkg/engine/loop.go:23-27 | The smaller of the server limit, ten by default, and a positive request limit |
| Tools.FilterAllowedTools | pkg/tools/filter.go:16-42 | The permitted calls and the refusals, each in order; an empty list permits all |
| Tools.FilterPartitions | pkg/tools/filter.go:16-42 | Each call id is permitted or refused as often as it was called |
| Tools.PermittedAreListed | pkg/tools/filter.go:16-42 | A call is permitted exactly when its tool is listed, and every refusal is an error result |
| AgenticResults.FilterKeepsOrder | pkg/tools/filter.go:16-42 | The filter sends each call one way, by its name, and keeps the order both ways |
| TopK.Backend.Search | pkg/vectorstore/memory/memory.go:64-104 | The best maxResults points of the collection, best first; an unknown collection fails |
| TopK.Backend.FoundArePoints | pkg/vectorstore/memory/memory.go:64-104 | Each match found is a point of the collection, with its content and its similarity to the query |
| TopK.Backend.EveryPointMatches | pkg/vectorstore/memory/memory.go:64-104 | Each point of the collection is one candidate |
| TopK.Backend.Gather | pkg/tools/builtins/filesearch/provider.go:346-368 | The best maxResults points of all searched collections together, best first |
| TopK.Backend.PointsOfConcat | pkg/tools/builtins/filesearch/provider.go:346-360 | The points searched are those of each listed store together |
| TopK.TopStandsForAll | pkg/tools/builtins/filesearch/provider.go:346-360 | A collection's own top list may stand for all its points in a later selection |
| TopK.TopScoresUnique | pkg/tools/builtins/filesearch/provider.go:362-368 | Ties leave the matches open but not the sequence of scores |
| TopK.GatherScoresAreGlobal | pkg/tools/builtins/filesearch/provider.go:346-368 | Gathering top lists gives the score sequence of sorting all points together and truncating |
| Chunker.FixedSizeChunker.Chunk | pkg/files/chunker.go:33-85 | Ends; chunks are windows of 1 to max runes with advancing starts, no gap, ends that never move back, from the first rune to the last |
| Chunker.OverlapsOrMovesOn | pkg/files/chunker.go:75-81 | Each chunk begins the overlap before the end of the one before if that moves on, and one rune after its start if not |
| Chunker.EndsNeverMoveBack | pkg/files/chunker.go:48-64 | A later window never ends earlier, despite the backward search for whitespace |
| Chunker.NoOverlapPartitions | pkg/files/chunker.go:33-85 | With no overlap the chunks concatenate to the text, and (n - 1) * (max / 2 + 1) is less than its length |
| Chunker.NoGaps | pkg/files/chunker.go:33-85 | Every rune of the text is in some chunk |
| Chunker.FewChunksAfterTheEnd | pkg/files/chunker.go:48-82 | At most overlap chunks follow the first that reaches the end |
| RateLimit.InProcessLimiter.Allow | pkg/auth/ratelimit.go:45-79 | The decision and the counters after a call |
| RateLimit.RateIsTheTiers | pkg/auth/ratelimit.go:45-60 | The rate is that of the tier if it is listed, else the default |
| RateLimit.CallsAreCounted | pkg/auth/ratelimit.go:45-79 | A call with a positive rate changes the counter of its own subject and tier alone, opens a window or counts in it, and is admitted while the count is within the rate; one without is admitted and not counted |
| RateLimit.AtMostTheRatePerWindow | pkg/auth/ratelimit.go:45-79 | Over any run with a monotone clock no window admits more than the rate |
| RateLimit.AtMostTwiceTheRatePerMinute | pkg/auth/ratelimit.go:45-79 | No half-open minute admits more than twice the rate, less one |
| RateLimit.TwiceTheRateAttained | pkg/auth/ratelimit.go:45-79 | For every rate, a call at 0 s, the rest of the rate at 59 s and a whole rate at 60 s have 2 * rpm - 1 calls admitted in the minute from 59 s |
| RateLimit.SlidesExactlyWhen | pkg/auth/ratelimit.go:20-26 | The promise of a sliding window, at most the rate in every half-open minute of every monotone run from the empty limiter, holds if and only if the rate is one call a minute |

## Left out

- HTTP handling, JSON, SQL, Kubernetes, MCP, Prometheus, logging, auditing, configuration loading and the web-search adapters: plumbing or foreign calls. JSON payloads are opaque strings.
- The streaming agentic loop and its tool lifecycle events (pkg/engine/loop.go:197-400, 772-889): they join the streaming engine and the agentic loop, which are modelled each on its own; with parallel tools the numbering of the events is not gapless.
- GetInputItems (pkg/storage/memory/memory.go:392-470): the cursor paging of ListResponses over a list that does not change.
- Annotations.SubstringMatcher.MatchSource: the range in the output; what buildAnnotation makes of it, and texts whose length changes in lower case, are not modelled.
- AgenticLoop.RunAgenticLoop: does not attach annotations to the messages of the final response, which Annotations models on its own.
- MemoryStore.Store.UpdateResponse: entries are values in the map, so a response pointer handed to an earlier caller does not see later changes as it does in Go.
- The PostgreSQL store: its UpdateResponse does not check transitions, so the theorems on terminal statuses are about the memory store.
- StreamRun.HandleStreaming: assumes a writer that does not fail and a provider stream that starts; a failed start is returned before anything is written.
- Sse.ParseSSEStream: the 64 KB line limit of bufio.Scanner and read errors are not modelled, nor is what handleSSEEvent decodes from the data.
- ChatStream.ParseSSEStream: decoding a chunk from JSON is a parameter.
- Circuit.CircuitBreaker.Allow: clock readings are parameters and need not be monotone; counters are unbounded.
- Retry.ResilientProvider.Complete: classification of errors and the metrics of breaker transitions are not modelled; Stream runs the same loop around another call.
- RateLimit.InProcessLimiter.Allow: one lock-protected call at a time; a subject that contains a colon shares its counter with another, as in the code.
- TopK.Backend.Search: scores are totally ordered numbers, so floating point and NaN are not modelled, and the similarity is a parameter.
- Utf8: valid text only; Go's replacement of invalid bytes is not modelled.
- Background: store calls are single steps, as under the store's lock; timers and goroutine shutdown order are left to the interleaving.
