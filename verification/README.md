# ModelProxy, verified

ModelProxy is a gateway in front of large language models. It accepts OpenAI and Anthropic requests,
chooses an upstream, translates between the two message formats, relays event streams, retries and falls
back when an upstream fails, and keeps limits, quotas and logs. This project models the parts of the
gateway that are algorithms rather than plumbing, and proves what they guarantee on every input and over
every run.

| part | modules |
|---|---|
| event-stream relay and buffered reading | `SseRelay`, `SseTheorems`, `SseDelivery`, `SseEvents`, `SseStandard`, `SseBody`, `SseFlush`, `SseFigures`, `Readings`, `ToolCalls`, `Usage`, `TokenEstimate` |
| format conversion | `AnthropicConvert`, `AnthropicEvents`, `AnthropicAgreement`, `AnthropicEnding`, `FinishReasons`, `RoleMerge`, `RequestConvert`, `AssistantRoundTrip` |
| candidates, retries and fallbacks | `Candidates`, `Failover`, `FailoverGuards`, `RetryDelay` |
| limiters, quotas and the token ledger | `RateLimiter`, `KeyOvershoot`, `UpstreamLimiter`, `UserQuota`, `Ledger`, `Calendar` |
| aliases, smart routes and the audit scan | `AliasText`, `AdminTables`, `AliasNamespace`, `ResolveModel`, `ModelAccess`, `SmartRoutes`, `RouteResolution`, `RouteConditions`, `ClockTexts`, `AuditScan` |
| shared | `Wrappers`, `Text`, `Json` |

Code that loops or updates state is a method or a class here, proved equal to a specification function;
the theorems are about those functions. Everything is checked by `dafny verify dfyconfig.toml`.

Conventions:

- `Parser` and `Printer` stand for JSON reading and printing and may be any functions. Two assumptions are
  made where they are needed, and nowhere else: `[DONE]`, bare or padded with white space, is not JSON
  (`RejectsMarker`), and the two JSON texts the gateway composes itself are (`MarkerIsNotJson`).
- Text is a sequence of characters; each network chunk is taken as whole characters.
- Clocks and dates are inputs that never go back. A date knows its month, as the code's texts
  `%Y-%m-%d` and `%Y-%m` do.
- `as i32` casts, the 32-bit index of tool calls and the 64-bit backoff arithmetic wrap as they do in a
  release build. Other 64-bit counters are unbounded. `f64` values are real numbers.
- Identifiers are numbers instead of UUIDs.

Results that say where the code falls short of what its names or comments suggest, each with an exact condition
or a counterexample:

- the streamed conversion always finishes with `stop`, because `message_stop` overwrites what
  `message_delta` reported (`FinishReasonIsOverwritten`); it loses the prompt tokens, and counts an answer
  that reports no output as ten prompt tokens plus an estimate (`PromptTokensAreLost`);
- the streamed conversion turns the use of server tools, and other blocks it does not know, into nameless tool
  calls and stray text that the one-shot conversion leaves out (`StreamAgreesWithOneShot`,
  `ServerToolIsLeaked`); a tool call without input has empty arguments in the stream;
- one carriage return inside a relayed event ends the relay task, with nothing sent after it, no end marker and
  nothing written (`EveryRunEndsOnceOrGivesUp`, `OpenAiFinishesIff`, `CarriageReturnEndsTheRun`);
- the reasoning text of a logged OpenAI stream misses what the end-of-stream flush relayed
  (`LoggedReasoningIsCompleteIff`, `FlushedReasoningIsNotLogged`), the log of an Anthropic stream misses text
  and reasoning of the flushed event (`LoggedAnthropicTextIsCompleteIff`, `FlushedTextIsNotLogged`), and an Anthropic event whose last
  line was terminated is lost when the stream breaks off before its empty line (`BrokenOffBlock`);
- relay and buffered reader treat an unterminated rest differently (`StreamedEqualsBuffered`,
  `TrimmedBodiesAgreeIff`);
- `data` and `event` fields written without a space after the colon are lost, against the standard for event
  streams (`RelayMeetsStandardIff`, `SpacelessDataIsLost`, `SpacelessTypeIsLost`);
- an exponential backoff that leaves 64 bits wraps: the first one that does means no wait at all
  (`ExponentialDelay`, `DelaysGrowIff`, `FirstOverflow`);
- `exponential_jitter` only ever shortens the wait, since the sub-second nanoseconds are divided by 2^32 - 1
  (`JitterShortens`);
- `daily_tokens` of a key misses what was recorded on a day before that day's first cleanup
  (`CounterMissesEarlyUsage`, `EarlyUsageIsMissed`);
- an upstream, and a key, can go over its request limits by the number of requests in flight minus one, and
  does (`OvershootIsBounded`, `DailyOvershootIsAttainedIff`, `MonthlyOvershootIsAttained`,
  `KeyOvershootIsBounded`, `KeyOvershootIsAttained`);
- keywords with commas and empty times do not survive saving (`KeywordsRoundTrip`, `CommaKeywordIsSplit`,
  `SaveThenList`); a saved keyword with commas matches by its parts (`CommaKeywordMatchesParts`);
- on Ollama upstreams a lookup can depend on the iteration order of the hash map, after three ordinary
  administrator operations (`OllamaDependsOnOrder`).

## Model

| member | source | states |
|---|---|---|
| `TokenEstimate.EstimateTokensByRules` | src/proxy/upstream.rs:33-76 | the one-pass loop computes ceil((5·words + 2·others)/2), where words are maximal runs of ASCII letters and others are characters that are neither letters nor white space |
| `TokenEstimate.EstimateIgnoresTrimming` | src/proxy/upstream.rs:34-37 | trimming never changes the estimate |
| `TokenEstimate.EstimateOfConcat` | src/proxy/upstream.rs:45-75 | est(a)+est(b)-3 <= est(a++b) <= est(a)+est(b) for all texts |
| `TokenEstimate.SplittingAWordCostsThree` | src/proxy/upstream.rs:45-75 | the loss of three is attained |
| `TokenEstimate.OthersCountOnce` | src/proxy/upstream.rs:45-75 | text without letters and white space estimates its length |
| `TokenEstimate.OneWordIsThree` | src/proxy/upstream.rs:45-75 | a single word of any length estimates three |
| `Usage.FromStreamChunks` | src/proxy/upstream.rs:492-533 | last reported usage, or 10 prompt tokens plus the estimate of all delta texts when nothing non-zero was reported, with wrapping sums |
| `SseFigures.ChunkFigures` | src/proxy/upstream.rs:492-533 | the figures of chunks are `prompt_tokens` and `completion_tokens` of the last `usage` member, in 32 bits and in this order; when both are zero or absent and some choice carries text, ten and the estimate of all texts |
| `SseFigures.SilentChunkFigures` | src/proxy/upstream.rs:492-533 | the same without any `usage` member |
| `Readings.CountsAreRead` | src/proxy/handlers.rs:1942-1963 | the JSON paths of the two counts of an Anthropic stream |
| `Readings.TextsAreRead` | src/proxy/handlers.rs:1964-1984 | the JSON paths of the logged texts, for both kinds of upstream |
| `Readings.FinishIsRead` | src/proxy/handlers.rs:1676-1721 | the JSON path of the finish reason |
| `Readings.UsageIsRead` | src/proxy/upstream.rs:497-506 | the JSON paths of prompt and completion tokens |
| `Readings.AnswerUsageIsRead` | src/proxy/upstream.rs:1262-1273 | the usage of a one-shot answer: input tokens as prompt, output tokens as completion, and their sum |
| `Text.LinesOfConcat` | src/proxy/handlers.rs:1917-1922 | line splitting can be suspended at any character if only the unterminated rest is kept |
| `SseRelay.DrainBuffer` | src/proxy/handlers.rs:1917-2038 | the find-newline loop handles exactly the complete lines of the buffer, in order, and leaves the rest, unless an event is refused |
| `SseRelay.FlushBuffer` | src/proxy/handlers.rs:2080-2141 | the end-of-stream flush as a function of the pending state and the buffer |
| `SseRelay.CloseStream` | src/proxy/handlers.rs:2143-2208 | closing events, usage, status and recorded tokens as a function of what was collected |
| `SseRelay.RelayStream` | src/proxy/handlers.rs:1890-2208 | the whole relay task equals its functional outcome, or gives up having sent the events before the first one that is refused |
| `SseTheorems.ReceiveAllIsOnePass` | src/proxy/handlers.rs:1904-2078 | the receive loop is one pass over the lines of the concatenated text, from any buffer without a newline |
| `SseTheorems.RawIsAPrefix` | src/proxy/handlers.rs:1907-1911 | the collected raw bytes are the first min(65536, total) bytes |
| `SseTheorems.CollectedFromWholeText` | src/proxy/handlers.rs:1904-2141 | everything collected, including the flush, is a function of the concatenated text |
| `SseTheorems.ChunkingDoesNotMatter` | src/proxy/handlers.rs:1904-2208 | two streams with the same text and the same kind of end have the same outcome, however they are cut |
| `SseTheorems.CollectedIsPaired` | src/proxy/handlers.rs:1985-1990 | every relayed event carries the text of the chunk collected with it; the flush only appends |
| `SseTheorems.EveryStreamEndsOnce` | src/proxy/handlers.rs:1941-2178 | the outcome of every run that is not given up: one event per chunk, then exactly one `[DONE]` at the end; error event iff nothing was relayed and no normal end; finish chunk iff something was relayed, no normal end, and a transport error |
| `SseDelivery.EveryRunEndsOnceOrGivesUp` | src/proxy/handlers.rs:1985-2178 | on every input: a run is given up iff some event to be relayed has a carriage return; then it sent exactly the events before it and no `[DONE]`, otherwise `[DONE]` once and last |
| `SseDelivery.PlainStreamsFinish` | src/proxy/handlers.rs:1890-2141 | a stream whose carriage returns all end lines is relayed to its end |
| `SseDelivery.OpenAiFinishesIff` | src/proxy/handlers.rs:2008-2036 | in terms of the text: an OpenAI stream is relayed to its end iff no JSON data line, nor the flushed rest, has a carriage return in it |
| `SseDelivery.CarriageReturnEndsTheRun` | src/proxy/handlers.rs:2014-2036 | a line of JSON with a carriage return between its tokens, and nothing is sent at all |
| `SseTheorems.FailedIffNothingRelayed` | src/proxy/handlers.rs:2190-2208 | for the outcome of a run that is not given up: the log says "failed" iff no chunk was relayed; then nothing is recorded, otherwise exactly the logged total |
| `SseFigures.AnthropicFigures` | src/proxy/handlers.rs:2180-2192 | an Anthropic stream is logged with the last `message_start` count as input and the last `message_delta` count as output as soon as one is positive, with the figures of its chunks otherwise, and with their sum |
| `SseFigures.OpenAiFigures` | src/proxy/handlers.rs:2180-2192 | an OpenAI stream is logged with the figures of its chunks |
| `SseFigures.ClosingEventsRead` | src/proxy/handlers.rs:2149-2178 | the gateway's own finish chunk reads as an empty one that finishes with `stop`, its error names the upstream |
| `SseEvents.RelayDispatchesBlocks` | src/proxy/handlers.rs:1914-1995 | any stream of complete blocks, any chunking, LF or CRLF: one event per block with recognised data lines, named by its last recognised `event` line, its data lines joined, minus events that are not JSON |
| `SseStandard.LineIsReadAlikeIff` | src/proxy/handlers.rs:1924-1934 | the relay reads a line as section 9.2.6 of the WHATWG HTML Living Standard does, except exactly `data` and `event` fields without a space after the colon |
| `SseStandard.BlockIsSeenAlikeIff` | src/proxy/handlers.rs:1924-1995 | a block is dispatched as the standard says iff no data field lacks the space and, where there is data, the last `event` field has it or says the same as the last one that has it |
| `SseStandard.RelayMeetsStandardIff` | src/proxy/handlers.rs:1914-1995 | for any stream of complete blocks, any chunking and either line ending, clients see exactly the standard's JSON events, whatever counts as JSON, iff every block meets that condition |
| `SseStandard.SpacedStreamsMeetStandard` | src/proxy/handlers.rs:1914-1995 | streams that use the space throughout are relayed as the standard says |
| `SseStandard.SpacelessDataIsLost` | src/proxy/handlers.rs:1928-1931 | `data:x` is an event for the standard and nothing for the relay |
| `SseStandard.SpacelessTypeIsLost` | src/proxy/handlers.rs:1924-1927 | `event:x` sets the type for the standard and not for the relay |
| `SseEvents.BrokenOffBlock` | src/proxy/handlers.rs:2080-2113 | what the flush makes of a stream that breaks off inside a block, with the exact condition under which the pending event is relayed |
| `SseEvents.CountsAreReported` | src/proxy/handlers.rs:1942-1963 | token counts are the last ones reported by `message_start` and `message_delta` events; the stream has ended iff a `message_stop` event was relayed; the flush counts nothing |
| `SseEvents.RelayPassesPayloads` | src/proxy/handlers.rs:1996-2038 | a well-formed OpenAI stream is relayed data line by data line, except `[DONE]` and what is not JSON |
| `SseBody.CollectChunks` | src/proxy/handlers.rs:1651-1661 | the JSON chunks of the data lines of a body, in order |
| `SseBody.AcceptToolDelta` | src/proxy/handlers.rs:1703-1713 | one tool-call fragment creates or updates the entry of its index |
| `SseBody.FoldChunks` | src/proxy/handlers.rs:1676-1721 | the accumulators mean: last id, object, created, model and finish reason, concatenated texts, reassembled calls |
| `SseBody.ParseOpenAiSseBody` | src/proxy/handlers.rs:1650-1775 | the buffered reader as a whole: none without chunks, otherwise the folded answer |
| `SseBody.RelayCollectsLineChunks` | src/proxy/handlers.rs:2008-2036 | the relay's line loop collects what the buffered reader collects |
| `SseBody.OpenAiEndedIff` | src/proxy/handlers.rs:2009-2012 | an OpenAI stream has ended normally iff a complete line, or the trimmed rest, reads `data: [DONE]` |
| `SseFlush.OpenAiCollects` | src/proxy/handlers.rs:2014-2036 | an OpenAI stream in closed form: chunks of the complete lines, then the flushed one; content of all of them, reasoning of those before the flush |
| `SseFlush.LoggedReasoningIsCompleteIff` | src/proxy/handlers.rs:2114-2140 | the logged reasoning is complete iff a marker line came before or the trimmed rest is no data line, the marker, no JSON, or carries no reasoning |
| `SseFlush.FlushedReasoningIsNotLogged` | src/proxy/handlers.rs:2114-2140 | an unterminated last line whose reasoning is relayed and not logged |
| `SseFlush.LoggedAnthropicTextIsCompleteIff` | src/proxy/handlers.rs:2098-2113 | neither text nor reasoning of a flushed Anthropic event is logged; each is complete iff the open block with the trimmed rest makes no event or one without it, or a `message_stop` came before |
| `SseFlush.FlushedTextIsNotLogged` | src/proxy/handlers.rs:2098-2113 | an unterminated last line whose text and reasoning are relayed and not logged |
| `SseFlush.StreamedEqualsBuffered` | src/proxy/handlers.rs:1650-1721 | for every body in any chunking, relay and buffered reader collect the same chunks from the complete lines; they agree on chunks, content and reasoning under exact conditions on the rest, and on token counts whenever they agree on chunks |
| `SseFlush.TrimmedBodiesAgreeIff` | src/proxy/handlers.rs:1646-1661 | on the trimmed bodies the buffered reader is given, the exact condition for agreement |
| `ToolCalls.TableIsWholes` | src/proxy/handlers.rs:1702-1714 | an index has an entry iff a fragment carried it, and the entry is made of that index's fragments alone |
| `ToolCalls.ReassemblyIsPerIndex` | src/proxy/handlers.rs:1701-1743 | one call per index, strictly ascending: last id, last name, arguments concatenated in order |
| `ToolCalls.InterleavingDoesNotMatter` | src/proxy/handlers.rs:1701-1743 | two interleavings of the same per-index fragment streams give the same calls |
| `ToolCalls.FreshRun` | src/proxy/handlers.rs:1730-1743 | fragments at a larger index add exactly one call at the end |
| `AnthropicConvert.ConvertResponse` | src/proxy/upstream.rs:1225-1321 | the one-shot conversion collects texts, thinking and tool calls in block order |
| `FinishReasons.AnswerFinishes` | src/proxy/upstream.rs:1275-1285 | for every answer: `length` iff the stop reason is `max_tokens` or `length`, `tool_calls` iff it is `tool_use` or `tool_calls`, `stop` iff it is absent, `end_turn` or `stop`, and every other reason is kept |
| `FinishReasons.DeltaFinishes` | src/proxy/upstream.rs:1483-1494 | the same for the chunk a `message_delta` event is converted to |
| `AnthropicEvents.StreamReads` | src/proxy/upstream.rs:1323-1537 | for every list of events with any payloads and times: what reassembly reads off the converted chunks is what the block events say, and no other event says anything |
| `AnthropicAgreement.StreamInClosedForm` | src/proxy/upstream.rs:1345-1482 | for all blocks of all kinds in all fragmentations: the reassembled answer has the texts and thinking in order and one call per tool use, or per other block with pieces of input, in block order |
| `AnthropicAgreement.BlockAppendsItsCall` | src/proxy/upstream.rs:1371-1398 | the fragments of a block, at its own index, reassemble to exactly one more call at the end, or none |
| `AnthropicAgreement.StreamAgreesWithOneShot` | src/proxy/upstream.rs:1225-1537 | for all blocks of all kinds, all fragmentations, any payloads and any other events in between, stream conversion plus reassembly and one-shot conversion agree on the content iff text comes only in text deltas of text blocks, on the reasoning iff thinking comes only in thinking blocks, and on the tool calls iff pieces of input come only in tool blocks and spell the printed input; an empty content is "" or absent |
| `Readings.ToolStartIsFunction` | src/proxy/upstream.rs:1371-1398 | the chunk that opens a tool call names a function, its index and its id |
| `AnthropicAgreement.ServerToolIsLeaked` | src/proxy/upstream.rs:1443-1464 | a server tool use with one piece of input: a nameless tool call in the stream, none in one shot |
| `AnthropicEnding.LastReportsDecide` | src/proxy/upstream.rs:1483-1532 | for every list of events: finish reason and usage of the converted chunks are those of the last `message_delta` or `message_stop` |
| `AnthropicEnding.FinishReasonIsOverwritten` | src/proxy/upstream.rs:1483-1532 | whenever `message_stop` follows every `message_delta`, the streamed finish reason is `stop`; it agrees with the one-shot one iff the stop reason means `stop` |
| `AnthropicEnding.PromptTokensAreLost` | src/proxy/upstream.rs:1496-1518 | for every list of events, the usage of the reassembled stream: no prompt tokens, or ten and an estimate when no output is reported for some text; both conversions agree iff there are no input tokens and the output is reported or there is no text (exact up to a 2^32 wrap of the estimate, which is stated too) |
| `AnthropicEnding.HeaderSurvives` | src/proxy/upstream.rs:1520-1532 | id and model of any converted stream survive reassembly, and the creation time is that of the last event with a chunk, though the clock is read for every event |
| `RoleMerge.RunsGroup` | src/proxy/upstream.rs:1201-1218 | the runs are the group-by: in order, one role each, neighbours differ |
| `RoleMerge.MergeConsecutiveRoles` | src/proxy/upstream.rs:1201-1223 | the in-place loop equals: group by runs, collapse each run, drop a leading assistant |
| `RoleMerge.MergedAlternates` | src/proxy/upstream.rs:1207-1222 | no two adjacent equal roles, and the first is never the assistant |
| `RoleMerge.MergedKeepsAlternating` | src/proxy/upstream.rs:1207-1222 | messages that alternate already are kept with all their blocks |
| `RoleMerge.MergingIsIdempotent` | src/proxy/upstream.rs:1201-1223 | merging twice is merging once |
| `RequestConvert.ConvertContentBlocks` | src/proxy/upstream.rs:1161-1173 | the blocks of a content, in part order; audio is dropped |
| `RequestConvert.ConvertSpoken` | src/proxy/upstream.rs:1048-1095 | tool results become user messages, assistant messages with calls their text and tool uses in order, all others their content |
| `RequestConvert.SystemIsSplitOff` | src/proxy/upstream.rs:1048-1050 | exactly the system messages go to the system field, with their texts |
| `RequestConvert.ToolResultAnswersCall` | src/proxy/upstream.rs:1051-1061 | a tool message answers the call it names, as the user, with its text |
| `RequestConvert.PartsBecomeBlocks` | src/proxy/upstream.rs:1161-1173 | parts without audio become blocks one by one |
| `RequestConvert.ConvertRequest` | src/proxy/upstream.rs:1042-1155 | the system field is the ordered join of the system texts, the messages are the merged conversions of all others; token limit with its default, tools, tool choice and the copied fields |
| `RequestConvert.ToolIsKept` | src/proxy/upstream.rs:1103-1141 | a function tool keeps its name, description and schema, and a choice of it still names it |
| `RequestConvert.ToolDefaults` | src/proxy/upstream.rs:1103-1117 | what a tool does not give is an empty name, no description, an empty schema |
| `RequestConvert.ToolChoiceIsKept` | src/proxy/upstream.rs:1121-1141 | `auto` iff `auto`, any tool iff `required`, that tool for a function, and no choice in all other cases |
| `RequestConvert.DataUriRoundTrip` | src/proxy/upstream.rs:1183-1199 | a base64 data URI gives back media type and payload iff the media type contains no semicolon |
| `RequestConvert.ConversionKeepsTurns` | src/proxy/upstream.rs:1048-1095 | conversion keeps speaker and text of every message; tool results speak as the user and count as empty text |
| `RequestConvert.RequestKeepsTextRunByRun` | src/proxy/upstream.rs:1042-1155 | the request carries one message per run of one speaker with the run's texts joined by blank lines, except a leading assistant run |
| `AssistantRoundTrip.AssistantMessageRoundTrip` | src/proxy/upstream.rs:1062-1080 | an assistant message with tool calls, converted and read back from an answer that repeats it, keeps text and calls in order; the calls are unchanged iff their arguments are what the gateway prints for them |
| `RetryDelay.BackoffIsExact` | src/proxy/handlers.rs:1108 | neither the power nor the product overflows iff base·2^(n-1) < 2^63 |
| `RetryDelay.ExponentialDelay` | src/proxy/handlers.rs:1107-1114 | the delay is min(base·2^(n-1), cap) iff the product does not overflow, or there is a cap and what 64 bits keep of the product reaches it |
| `RetryDelay.DelaysGrowIff` | src/proxy/handlers.rs:1107-1114 | the delays up to an attempt never shrink iff that attempt does not overflow, whatever the cap |
| `RetryDelay.JitterShortens` | src/proxy/handlers.rs:1115-1137 | for every policy and attempt: no delay if the capped value is not positive, else between three quarters and seven eighths of it, up to half a millisecond of rounding, and never above it |
| `RetryDelay.ExponentialWaitsAddUp` | src/proxy/handlers.rs:857-874 | the uncapped waits of a full retry loop sum to base·(2^retries - 1) iff the last one does not overflow, and to less otherwise |
| `RetryDelay.OtherStrategiesAreFixed` | src/proxy/handlers.rs:1103-1125 | any other strategy waits for the base, and without a positive base there is no wait |
| `Candidates.BuildCandidates` | src/proxy/handlers.rs:200-265 | routed candidates first, then the tenant's other upstreams that resolve the model |
| `Candidates.RouteCandidatesAreUsable` | src/proxy/handlers.rs:217-240 | routed candidates are active and of the client's API family |
| `Candidates.TenantCandidatesAreUsable` | src/proxy/handlers.rs:242-265 | so are the tenant's, and none of them was routed already |
| `FailoverGuards.RoutedIff` | src/proxy/handlers.rs:217-240 | an entry is a routed candidate iff some route names a stored, active upstream of the client's family, with the visibility row stored for it |
| `FailoverGuards.OfferedIff` | src/proxy/handlers.rs:242-265 | an entry is a tenant candidate iff its upstream is active, of the client's family, not routed already and resolves the model, with the row stored for it |
| `Candidates.SucceedsIffAnswered` | src/proxy/handlers.rs:857-1009 | the attempts succeed iff some attempt is answered and all earlier ones were retried, with that attempt's response |
| `Candidates.RetryLoop` | src/proxy/handlers.rs:857-1009 | outcome, number of attempts and total waiting time of the attempts at one upstream |
| `FailoverGuards.AttemptLimit` | src/proxy/handlers.rs:857 | one attempt, and as many more as a positive retry count says |
| `FailoverGuards.LastErrorIsLeft` | src/proxy/handlers.rs:857-1009 | which error is left when the attempts at an upstream fail |
| `Failover.InsertFallback` | src/proxy/handlers.rs:1003-1041 | a failed entry's fallback goes directly behind it, after all guards |
| `FailoverGuards.FallbackIff` | src/proxy/handlers.rs:1003-1022 | a failed entry has a fallback iff it routes to a stored, active, untried upstream of the client's family and a model without visibility row, open to all, or listing the user; the fallback carries the row stored for it |
| `Failover.NextDecreases` | src/proxy/handlers.rs:829-1041 | every round uses up an untouched upstream or shortens the queue |
| `Failover.RunFailover` | src/proxy/handlers.rs:829-1041 | the growing worklist terminates; it processes a prefix of the full walk up to the first success, or the whole walk and returns the last error |
| `FailoverGuards.FallbacksArePermitted` | src/proxy/handlers.rs:829-1041 | over the whole walk: every fallback is permitted to the user, and the entry after a failed one is a fallback iff that one routes to an open upstream |
| `Failover.WalkKeepsGiven` | src/proxy/handlers.rs:829-1041 | the initial candidates are processed in their order |
| `Failover.FallbacksFollow` | src/proxy/handlers.rs:1005-1022 | each fallback comes directly after the entry that names it |
| `Failover.FallbacksAreFresh` | src/proxy/handlers.rs:1014-1019 | no upstream is inserted twice |
| `Failover.GivingUpProcesses` | src/proxy/handlers.rs:336-535 | all of this together on giving up, with at most as many rounds as candidates plus other upstreams, every entry of the client's API family |
| `RateLimiter.DropBefore` | src/proxy/rate_limiter.rs:50-64 | the pop-front loop keeps exactly the elements not older than the cutoff |
| `RateLimiter.WindowNarrows` | src/proxy/rate_limiter.rs:47-64 | narrowing the window of the queues is taking the window of the full log |
| `RateLimiter.CounterMissesEarlyUsage` | src/proxy/rate_limiter.rs:66-70 | counter plus what was recorded before the day's first roll is the day's usage |
| `RateLimiter.EarlyUsageIsMissed` | src/proxy/rate_limiter.rs:139-149 | a run in which the counter misses usage |
| `RateLimiter.SlidingWindow.Cleanup` | src/proxy/rate_limiter.rs:47-71 | keeps queues and counter refinements of the recorded history |
| `RateLimiter.SlidingWindow.RecordUsage` | src/proxy/rate_limiter.rs:139-149 | appends to the history; does not roll the day |
| `RateLimiter.SlidingWindow.CheckRateLimit` | src/proxy/rate_limiter.rs:105-137 | the verdict is the one computed from the full log within the window and from the day's history since the first cleanup |
| `KeyOvershoot.KeyOvershootIsBounded` | src/proxy/rate_limiter.rs:105-149 | over every interleaving of admissions, completions and failures of one key with at most K in flight and at most T tokens each: no window of the past holds more than limit - 1 + K requests (while that stays below 2^31) or limit - 1 + K·T tokens, and neither does the daily counter |
| `KeyOvershoot.KeyOvershootIsAttained` | src/proxy/rate_limiter.rs:105-149 | for every request limit and every K some run records exactly limit - 1 + K requests in one window |
| `KeyOvershoot.VerdictIsExact` | src/proxy/rate_limiter.rs:105-137 | which limit refuses a request, and exactly when, counted over the full log |
| `UpstreamLimiter.UpstreamWindow.CheckLimit` | src/proxy/rate_limiter.rs:228-254 | rolls day and month, then admits iff no positive limit is reached |
| `UpstreamLimiter.UpstreamWindow.RecordUsage` | src/proxy/rate_limiter.rs:256-266 | rolls, then counts one request |
| `UpstreamLimiter.OvershootIsBounded` | src/proxy/rate_limiter.rs:193-271 | over every interleaving of admissions, completions, failures, date changes and resets with at most K requests in flight, counters stay exact, counter + in flight <= limit - 1 + K, and so does every day and month |
| `UpstreamLimiter.DailyOvershootIsAttainedIff` | src/proxy/rate_limiter.rs:228-266 | for every K some run ends exactly at the daily bound iff no smaller monthly limit cuts it off |
| `UpstreamLimiter.MonthlyOvershootIsAttained` | src/proxy/rate_limiter.rs:228-266 | for every K and all limits some run ends exactly at the monthly bound, after (monthly - 1) / daily days |
| `UserQuota.QuotaStore.CheckUserRequestQuota` | src/store/mod.rs:316-360 | the in-place update equals its functional step |
| `UserQuota.QuotaStore.GetUserQuotaUsage` | src/store/mod.rs:362-382 | the figures are the numbers of accepted requests of the current date and month, for every history the counters record exactly |
| `UserQuota.EntryIsExact` | src/store/mod.rs:334-341 | rolled counters and shown usage are the accepted requests of any later day |
| `UserQuota.CheckIsExact` | src/store/mod.rs:334-359 | one request keeps the counters equal to the accepted requests and is accepted iff these leave room |
| `UserQuota.QuotaHolds` | src/store/mod.rs:316-382 | over every run the accepted requests never exceed a positive limit on any day or month, and the usage shown is exactly their number |
| `UserQuota.RejectedIffFull` | src/store/mod.rs:343-354 | a request is rejected iff the accepted ones before it fill a limit |
| `Ledger.WriteReply` | src/proxy/handlers.rs:1497-1580 | the writes of an answered request, in program order |
| `Ledger.HandleRequest` | src/proxy/handlers.rs:829-1082 | what a request writes, after its failover loop, is decided by the result of the loop: the reply's writes, or those of giving up with the last error |
| `Ledger.WritesBalance` | src/proxy/handlers.rs:1497-1580 | every ended request, answered at once, streamed or given up, writes the same amount to the key's limiter, its conversation and its log entry, and nothing to other keys |
| `Ledger.WrittenAmounts` | src/proxy/handlers.rs:1497-1580 | the amount and the status of every kind of ending |
| `Ledger.FinishingComesLast` | src/proxy/handlers.rs:1497-1580 | the log entry of an answered request is finished after its tokens were recorded and added |
| `Ledger.SumByRequest` | src/proxy/handlers.rs:1497-1580 | adding up in time order is adding up request by request, for every interleaving |
| `Ledger.TokensAreConserved` | src/proxy/handlers.rs:2190-2273 | over every interleaving, tokens recorded for a key, added to its conversations and logged are equal, and every request's log entry gets exactly one terminal status, or none if its relay task gave up |
| `AliasText.NormalizeAliases` | src/db/model_visibility.rs:22-39 | trimmed, non-empty pieces, first occurrences only |
| `AliasText.NormalizeKeywords` | src/db/model_visibility.rs:41-53 | the same for a list of keywords, without splitting them |
| `AliasText.DedupedKeepsMembers` | src/db/model_visibility.rs:34-36 | duplicates are removed and nothing else |
| `AliasText.NormalizedMembers` | src/db/model_visibility.rs:22-39 | a normalised alias is a trimmed, non-empty part between commas of the list, or of the single alias if there is no list |
| `AliasText.KeywordMembers` | src/db/model_visibility.rs:41-53 | a normalised keyword is a trimmed, non-empty one of those entered |
| `AliasText.StoredRoundTrip` | src/db/model_visibility.rs:13-20 | a stored list of tidy names is read back unchanged iff no name contains a comma |
| `AliasText.AliasesRoundTrip` | src/db/model_visibility.rs:214-218 | normalised aliases always survive saving and loading |
| `AliasText.KeywordsRoundTrip` | src/db/model_visibility.rs:581-585 | normalised keywords survive iff they are free of commas |
| `AliasText.PartsOfJoin` | src/store/mod.rs:1848-1850 | a stored list is split into the comma-separated parts of its names, in order |
| `AliasText.CommaKeywordIsSplit` | src/db/model_visibility.rs:581-585 | a keyword that does not survive |
| `AdminTables.CheckAliases` | src/db/model_visibility.rs:201-211 | the first alias that is taken decides the error |
| `AdminTables.AdminDatabase.SetModelVisibility` | src/db/model_visibility.rs:149-316 | a rejected update changes nothing; an accepted one writes exactly the row of the model: aliases, users, retry settings with their defaults, and headers, kept if none are given |
| `AdminTables.SetVisibilityAcceptsIff` | src/db/model_visibility.rs:163-212 | the exact condition for saving a model's visibility |
| `RouteConditions.VisibilityIsAcceptedIff` | src/db/model_visibility.rs:163-212 | the same said over the rows of the tables |
| `ModelAccess.SavedRow` | src/db/model_visibility.rs:214-316 | the row of the model has the form's aliases and users, and no other row changes |
| `ModelAccess.SavedSettings` | src/db/model_visibility.rs:214-316 | retry settings are those given or their defaults, headers those given or those before |
| `AdminTables.ValidateRoute` | src/db/model_visibility.rs:455-551 | the validations in their order, the first failure decides |
| `AdminTables.AdminDatabase.UpsertConditionalAlias` | src/db/model_visibility.rs:449-634 | a rejected upsert changes nothing; an accepted one replaces exactly the rows of its name |
| `AdminTables.UpsertAcceptsIff` | src/db/model_visibility.rs:455-551 | the exact condition for saving a smart route |
| `RouteConditions.RuleErrorIs` | src/db/model_visibility.rs:482-512 | each complaint about a rule is made iff the rule has that fault and no earlier one, and there is none iff the rule is sound |
| `RouteConditions.RouteIsAcceptedIff` | src/db/model_visibility.rs:455-551 | a smart route is saved iff its name is neither blank nor an alias, its rules are sound, its fallback names a model, and its targets are stored upstreams of one family |
| `RouteConditions.RouteUsersAreSet` | src/db/model_visibility.rs:642-694 | changing the users of a smart route changes who sees its rows, and nothing else |
| `RouteConditions.RouteOperationsFailIff` | src/db/model_visibility.rs:642-719 | when changing the users of a smart route or deleting it fails, and how |
| `RouteConditions.DeletedRows` | src/db/model_visibility.rs:697-719 | deleting a name removes its rows and keeps all others |
| `AliasNamespace.SetModelKeepsSeparate` | src/db/model_visibility.rs:163-212 | setting a model's visibility keeps the name space separate |
| `AliasNamespace.UpsertKeepsSeparate` | src/db/model_visibility.rs:460-480 | so does saving a smart route |
| `AliasNamespace.OtherRouteOpsKeepSeparate` | src/db/model_visibility.rs:642-719 | so do changing its users and deleting it |
| `AliasNamespace.NamespaceStaysSeparate` | src/db/model_visibility.rs:163-212 | after every run of administrator operations, a model alias belongs to one model of the tenant and names no smart route |
| `ResolveModel.ResolveRequestedModel` | src/store/mod.rs:1626-1695 | the loop over the hash map, for any iteration order, equals its specification for that order |
| `ResolveModel.OrderIrrelevantIffDetermined` | src/store/mod.rs:1656-1694 | the answer is the same for every iteration order iff the hits are determined |
| `ResolveModel.ResolutionIsDeterministic` | src/store/mod.rs:1626-1695 | for every reachable database and non-Ollama upstream the order is irrelevant and the answer is the set-based one |
| `ModelAccess.LookupIsResolved` | src/store/mod.rs:1626-1695 | for every reachable database, non-Ollama upstream and iteration order: the model with the alias, else the model of the name, for its users only; the name itself without rules; nothing that is not declared |
| `ModelAccess.SavedAliasResolves` | src/store/mod.rs:85-90 | from the administrator's form to the lookup: an alias leads to its model for exactly the users of the form, and all others get nothing |
| `ModelAccess.SavedModelResolves` | src/store/mod.rs:85-90 | the same for the model's own name |
| `ModelAccess.NamesMatchIff` | src/store/mod.rs:70-82 | names match iff equal, on Ollama upstreams also up to one `:latest` at the end of one of them |
| `ResolveModel.OllamaDependsOnOrder` | src/store/mod.rs:70-82 | after three administrator operations, two models differing in ":latest" make the answer depend on the order |
| `SmartRoutes.QueryAfterUpsert` | src/db/model_visibility.rs:376-387 | every ordered query after an upsert returns the saved rows of that name, in input order |
| `SmartRoutes.ListConditionalAliases` | src/db/model_visibility.rs:389-446 | the grouping loop lists, for every name, the configuration its rows stand for |
| `SmartRoutes.SaveThenList` | src/db/model_visibility.rs:556-640 | listing after saving gives back the rules in order with priorities 1..n and the fallback; a rule is unchanged iff its keywords are comma-free and its times not empty |
| `RouteResolution.ResolveConditionalAliasRoutes` | src/store/mod.rs:1558-1619 | the first rule that hits, then the last usable fallback unless it is the same target |
| `RouteResolution.AtMostTwoDistinctRoutes` | src/store/mod.rs:1606-1618 | at most two targets, never equal, all accessible |
| `RouteResolution.SavedRuleMatches` | src/store/mod.rs:1831-1860 | for every rule, the stored rule matches a request iff the entered rule applies, a keyword with commas counting as its parts and an empty time as none |
| `RouteConditions.RuleMatchesIff` | src/store/mod.rs:1831-1880 | a saved rule matches iff image, token limits, some part of some keyword and the time range fit, said over the form and the order of texts |
| `RouteConditions.TimeRangeInMinutes` | src/store/mod.rs:1862-1880 | a rule with a time range alone matches iff start <= now <= end in minutes of the day |
| `RouteConditions.AcceptedRangesAreInhabited` | src/db/model_visibility.rs:505-511 | an accepted range starts before it ends and contains both times |
| `ClockTexts.AtMostIsTextOrder` | src/store/mod.rs:1867 | times compare in the order of texts, by their first difference |
| `ClockTexts.ClockOrder` | src/store/mod.rs:1867 | clock times compare as texts like their minutes |
| `RouteResolution.StorableAppliesAsWritten` | src/store/mod.rs:1845-1855 | without commas and empty times a rule applies as it is written |
| `RouteResolution.SaveThenResolve` | src/store/mod.rs:1558-1619 | from any accepted administrator's input to a request: permitted users get the first applicable accessible rule, then the accessible fallback if different; others get nothing |
| `RouteConditions.SavedRouteResolves` | src/store/mod.rs:1558-1619 | the same in explicit form: nobody else gets anything; a permitted user gets the target of the first rule that fits and may be used, then the other fallback |
| `RouteConditions.LastFallbackIs` | src/store/mod.rs:1578-1593 | of several fallback rows the last usable one counts |
| `AuditScan.EnrichCached` | src/audit/handlers.rs:332-378 | enriching through the memo tables is enriching without them |
| `AuditScan.ScanRow` | src/audit/handlers.rs:432-467 | one row is counted iff it passes, and kept iff it also falls on the page |
| `AuditScan.ScanFilteredProxyLogs` | src/audit/handlers.rs:380-476 | the batched scan terminates; total is the size of the filtered table and the items are the page's slice of it |
| `AuditScan.ListedIffWanted` | src/audit/handlers.rs:389-442 | an entry is found iff its row is by the user asked for and some text of it contains the keyword, up to case and outer white space, blank filters asking for nothing; the total is the number of such rows |
| `AuditScan.KeywordIff` | src/audit/handlers.rs:157-200 | what it means for an entry to contain the keyword |
| `AuditScan.PagesMakeTheExport` | src/audit/handlers.rs:399-404 | the pages one after the other are the unpaged export, and later pages are empty |

## Left out

- HTTP, TLS, header passthrough, compression, and sending itself; what an upstream answers to each attempt is an input.
- JSON reading and printing, UUID texts and base64: open functions, or numbers.
- A character split across two network chunks: the code decodes each chunk on its own, so chunking invariance is about characters, not bytes.
- The normalisation of a body (byte order mark, outer white space) before it is read as an event stream.
- `RateLimiter.SlidingWindow`: one window per key; the concurrent map of windows, its locks and the periodic cleanup task are not modelled, a cleanup may happen at any time.
- `KeyOvershoot.KeyOvershootIsBounded`: the tokens of a calendar day, which the daily counter does not count exactly (`CounterMissesEarlyUsage`).
- `UpstreamLimiter.MonthlyOvershootIsAttained`: the length of a month; a date is any day number.
- `UpstreamLimiter.UpstreamWindow`: the queue of request times, which nothing reads; the map of windows is an optional window per upstream.
- `UserQuota.QuotaHolds`: limits stay fixed during a run and counters are not removed by deleting a user.
- `Failover.RunFailover`: the store is a snapshot for the duration of one request.
- `Failover.GivingUpProcesses`: the initial candidates need not be distinct, as in the code.
- `Ledger.TokensAreConserved`: background database writes take effect in program order; write errors are not modelled.
- `AnthropicAgreement.StreamAgreesWithOneShot`: finish reason and usage, which really differ (see `AnthropicEnding`); streams whose block events do not come block by block, numbered from zero; more than 2^31 blocks, where the index cast wraps.
- `SseDelivery.EveryRunEndsOnceOrGivesUp`: the web framework's own rule, that a field must not contain a carriage return, is taken from its documentation; a client that hangs up changes nothing for the task.
- `SseFlush.StreamedEqualsBuffered`: when different rests happen to give the same token counts.
- `SseStandard.RelayMeetsStandardIff`: a byte order mark and line ends that are a lone carriage return, and the fields `id` and `retry`, which the relay drops.
- `AnthropicConvert.ConvertResponse`: the fresh identifier and the time of creation are inputs.
- `AdminTables.AdminDatabase.SetModelVisibility`: header names and values arrive normalised; database errors while reading the existing names.
- `AliasNamespace.NamespaceStaysSeparate`: operations happen one after the other, upstream ids are not reused, and the foreign keys on upstreams hold.
- `SmartRoutes.ListConditionalAliases`: the alphabetical order of the list; the grouping is a map here.
- `RouteResolution.SavedRuleMatches`: lower-casing is an open function, the local time is an input.
- `AuditScan.KeywordIff`: which fields of a log entry are searched is an open list of texts.
- `ModelAccess.SavedAliasResolves`: Ollama upstreams, where names can match several models (`OllamaDependsOnOrder`, `NamesMatchIff`).
- `AuditScan.ScanFilteredProxyLogs`: the table does not change during a scan; the database filters by time, user and token count are applied before.
- Ollama conversion, the load balancer, configuration, authentication, the user interface, log files, model listing and the remaining administration endpoints.
