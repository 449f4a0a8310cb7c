# Verified model of the LLM gateway

This project models the state machines and format translators at the heart of the gateway and proves what
they promise, for all inputs and over whole runs. `dafny verify dfyconfig.toml` checks it.

| files | part of the gateway |
|---|---|
| StreamTypes, StreamWriter, StreamShape, StreamDeltas, StreamDecoder, StreamNames, StreamRoundTrip, StreamMessage | the two streaming translators between OpenAI chunks and Anthropic events, and the text reassembly |
| Conversation, Wording, NormalForm, Idempotence, Conservation | requests between OpenAI messages and Anthropic turns |
| Breaker, BreakerRuns, BreakerGrants, FailureWindow, BreakerForgets, ProbeSlots | the circuit breaker, its registry, when it lets through, what opens and closes it, what sweeps make it forget, and the half-open probe slots |
| Upstreams, Picking, Handlers, HandlerSlots | weighted selection, breaker-aware picking, the two handlers' pairing of Allow with Record or Release, and any interleaving of them on one registry |
| RingMonitor, RingHistory, RingBuffer | the blocking ring buffer as a monitor with two condition variables, and as its callers see it |
| Limits, LimitObjects, LimitRules, LimitBounds, LimitGrants, LimitVisits, LimitVolleys, LimitWindows, LimitKeys, LimitReload, LimitEviction | the rate limiter: token buckets, windows, resolution, shared keys, reloads, idle eviction |
| Sessions, SessionRuns | the MCP session table |
| License | the signed license payload |
| Audit, AuditRuns, AuditRecords | the synchronous audit assembler |
| LoginGuard, GuardRuns | the guard against guessing admin passwords |
| Sse, SseLines | server-sent event framing of the MCP relay |
| Dashboard, DashboardFacts, DashboardFigures | the dashboard aggregation |
| Common | options and byte strings |

How the parts fit. Objects that the gateway updates in place are classes; each of their methods is proved to
change the object's value (`View` or `State`) exactly as a step function on values says. Runs are sequences of
steps, and the theorems about runs are about those step functions. Clock readings are arguments of the steps:
nanoseconds as integers, for the rate limiter seconds as reals. "Monotone" means that readings never go back.
Where several goroutines share a lock, every stretch of code under the lock is one step and runs may
interleave the steps in any order.

Where the code differs from its comments or documentation, the model follows the code:

- The breaker's sample window is only applied by Allow and Selectable, against the latest result. Results that
  come without them between (active probes, late responses) are counted however far apart they are
  (`FailureWindow.BothCountedIff`, `BreakerForgets.FarApartFailuresOpen`).
- A half-open or open breaker is also forgotten, and so closed, when nothing is reported for an hour
  (`BreakerRuns.LeavesHalfOpenIff`, `BreakerForgets.HalfOpenForgotten`). With OpenFor above that hour an open
  upstream can be let through early (`BreakerForgets.NeverEarlyIffTtlCovers`).
- A result of a request admitted while closed that arrives during half-open gives back a slot it never took, so
  that `inFlight` can go negative (`ProbeSlots.CrossingResultGoesNegative`).
- The sliding window of the rate limiter is a fixed window (`LimitWindows.SecondHoldsRateIff`), and reloading
  the configuration leaves existing limits at their old thresholds (`LimitReload.ReloadKeepsThresholds`).
- The limiter's key joins tenant and model with a separator that a tenant may contain (`LimitKeys.SharedKeyIff`).
- A login limit of one failure locks on the second (`GuardRuns.AdvertisedIff`).
- The trend cuts a window of days into slots of 24 hours, so that after a day of 25 hours the latest
  samples have no slot (`DashboardFacts.DaysShowAllIff`, `DashboardFacts.TrendShowsAllIff`).
- The license payload does not tell a feature with a comma from two features (`License.CommaConfuses`).
- The whole-message parser presents an empty or null tool input as `{}` and takes the text of unknown blocks; the
  stream decoder gives inputs as they came and skips unknown blocks (`StreamMessage.StreamingAgrees`).
- A second trip of a conversation through the Anthropic format can merge assistant messages that blank user
  messages kept apart (`Idempotence.IdempotentIff`).

## Model

| member | source | states |
|---|---|---|
| StreamRoundTrip.StreamRoundTrip | pkg/adapter/anthropic_stream.go:47-282 | for every sequence of payloads, decodable or not and with any number of choices, encoding with Process and Finish and decoding again gives a client the same text, the same tool calls in order of first appearance (first id and name, "function" for an empty name, all arguments joined) and the same finish reason, anything unknown or missing becoming "stop" |
| StreamShape.TranscriptIsComplete | pkg/adapter/anthropic_stream.go:177-289 | every run of payloads followed by Finish is one message_start, block starts numbered 0, 1, 2, ..., deltas only to an opened block of their kind, one stop for each block, one message_delta and one final message_stop; a second Finish sends nothing |
| StreamRoundTrip.TranscriptReports | pkg/adapter/anthropic_stream.go:195-282 | the closing message_delta carries the stop reason of the last finish reason in the stream and the tokens of its last usage-only chunk |
| StreamDeltas.DeltasAreSent | pkg/adapter/anthropic_stream.go:200-242 | a complete stream sends exactly the non-empty texts and tool arguments of the decodable chunks, each once and in order |
| StreamDeltas.BlocksStartWell | pkg/adapter/anthropic_stream.go:203-233 | text blocks start empty and tool blocks with a name |
| StreamShape.RunShape | pkg/adapter/anthropic_stream.go:177-248 | before Finish the output is nothing, or message_start and a body that keeps the block rules, and the writer has recorded exactly the blocks it opened |
| StreamShape.FinishCompletes | pkg/adapter/anthropic_stream.go:251-282 | Finish turns any such output into a complete stream, also when nothing was ever received |
| StreamRoundTrip.EmitInStep | pkg/adapter/anthropic_stream.go:200-246 | each thing a chunk says, written and read back, keeps the sent and the received reply equal and both tool-index maps consistent |
| StreamRoundTrip.StreamSays | pkg/adapter/anthropic_stream.go:200-246 | what the writer takes from the decodable chunks is exactly the reply that a client of those chunks assembles |
| StreamMessage.StreamingAgrees | pkg/adapter/anthropic.go:539-577 | however the blocks of a message are cut into deltas, with pings between, the finish reason is that of the whole message; the text is exactly when no block that is neither text nor a tool call carries text, and the tool calls are exactly when no tool input is empty or null |
| StreamMessage.TextsAgreeIff | pkg/adapter/anthropic.go:559-564 | the text of the text blocks is the parser's text exactly when no other block carries text, and never longer |
| StreamMessage.StreamedReply | pkg/adapter/anthropic_stream.go:47-143 | the reply assembled from any streaming of a message is the joined text of its text blocks, its tool blocks numbered in order with their inputs as cut, and its mapped stop reason |
| StreamMessage.ReassembledAgrees | pkg/core/sse_reassembler.go:31-49 | reassembling the decoded chunks gives the text of the text blocks, which is that of the whole message exactly when no other block carries text |
| StreamMessage.ReassembledIsText | pkg/core/sse_reassembler.go:31-49 | on single-choice chunks reassembling is the text a client accumulates |
| StreamMessage.ParsedIsWhole | pkg/adapter/anthropic.go:539-577 | the non-streaming parser returns the reply that streaming is compared with |
| StreamMessage.ParseResponse | pkg/adapter/anthropic.go:539-577 | content stays absent exactly when every block is a tool call, else it is all text joined, that of unknown blocks included; the tool calls are the tool blocks in order with an empty or null input as {}; the stop reason is mapped |
| StreamMessage.WholeInputs | pkg/adapter/anthropic.go:547-556 | an input that is missing or null is shown as {}, any other as it came |
| StreamMessage.Reassemble | pkg/core/sse_reassembler.go:31-49 | the string contents of the first choices joined in order; a chunk that does not decode, one choice with other content being enough, is skipped |
| StreamMessage.ReassembledNext | pkg/core/sse_reassembler.go:31-49 | one more chunk adds the text of its first choice, unless it does not decode or has none |
| StreamWriter.AnthropicSSEWriter.Process | pkg/adapter/anthropic_stream.go:177-248 | one payload is written as its message_start if it is the first, then each choice in order; a usage-only chunk only records its tokens; an undecodable payload is an error and changes nothing |
| StreamWriter.AnthropicSSEWriter.WriteContent | pkg/adapter/anthropic_stream.go:202-216 | non-empty string content opens the one text block if needed and adds one delta to it; other content writes nothing |
| StreamWriter.AnthropicSSEWriter.WriteTool | pkg/adapter/anthropic_stream.go:217-242 | a tool fragment opens a block for an index that is new, and adds its arguments, if any, to the block of its index |
| StreamWriter.AnthropicSSEWriter.WriteChoice | pkg/adapter/anthropic_stream.go:201-245 | text first, then the tool fragments in order, then the finish reason is remembered |
| StreamWriter.AnthropicSSEWriter.RecordReason | pkg/adapter/anthropic_stream.go:243-245 | a finish reason that is set replaces the remembered one |
| StreamWriter.AnthropicSSEWriter.AllocBlock | pkg/adapter/anthropic_stream.go:285-289 | block numbers are handed out consecutively |
| StreamWriter.AnthropicSSEWriter.FinishStream | pkg/adapter/anthropic_stream.go:251-282 | the first call closes every open block and the message, later calls do nothing |
| StreamDecoder.AnthropicStreamDecoder.DecodePayload | pkg/adapter/anthropic_stream.go:47-132 | one event is translated to no chunk or one; only the first message_delta reports a stop; an undecodable payload is an error and changes nothing |
| StreamDecoder.AnthropicStreamDecoder.OpenAIToolIndex | pkg/adapter/anthropic_stream.go:135-143 | a block keeps the tool index it was given on its first use, and a new block gets the next one |
| StreamDecoder.DecodeAllAppend | pkg/adapter/anthropic_stream.go:47-143 | decoding a stream in two parts is decoding it in one |
| StreamNames.ChunkOfEvent | pkg/adapter/anthropic_stream.go:47-143 | for every event sequence, the chunk of the next event: it bears the id and model of the latest message_start, itself included; only a message_start has a role, assistant; text, tool starts and tool inputs are given as they come, each tool under its place in the stream; only the first message_delta reports a reason, each stop reason as named |
| StreamNames.TranscriptIsNamed | pkg/adapter/anthropic_stream.go:54-71 | all chunks decoded from a complete stream carry the id and model that the writer was given |
| Idempotence.IdempotentIff | pkg/adapter/anthropic.go:172-499 | for every conversation, a second trip through the Anthropic format changes nothing exactly when no two assistant messages with something to send have between them only blank user texts, at least one, and messages that leave no block |
| Idempotence.SilentIffBlank | pkg/adapter/anthropic.go:189-254 | those are exactly the conversations whose encoded request has a user turn that says nothing between two other turns |
| NormalForm.IdempotentIffNotSilent | pkg/adapter/anthropic.go:344-499 | a second trip changes nothing exactly when the encoded request has no such turn |
| Idempotence.IdempotentWhenUsersSpeak | pkg/adapter/anthropic.go:172-499 | so a second trip changes nothing when every message sent as user text has text |
| Idempotence.BlankUserIsNotIdempotent | pkg/adapter/anthropic.go:449-451 | whatever two assistant texts stand around an empty user message, the first trip drops it and the second merges its neighbours |
| NormalForm.NormalIsKept | pkg/adapter/anthropic.go:172-499 | a conversation of one optional system message, then assistant turns alternating with tool messages followed by at most one user message, comes back unchanged |
| NormalForm.KeptIffNormal | pkg/adapter/anthropic.go:172-499 | only those conversations come back unchanged, name, refusal, and type and index of calls included |
| NormalForm.RoundIsNormal | pkg/adapter/anthropic.go:344-499 | one trip already leads to that form, unless a silent user turn stands inside |
| NormalForm.EncodedAlternates | pkg/adapter/anthropic.go:189-254 | whatever the roles of the messages, the encoded user and assistant turns strictly alternate and none is empty |
| NormalForm.SilenceJoins | pkg/adapter/anthropic.go:426-452 | a silent user turn inside leaves two assistant messages side by side |
| NormalForm.NeighboursMerge | pkg/adapter/anthropic.go:245-254 | assistant messages side by side become fewer turns than messages |
| Conservation.RoundKeepsSpeech | pkg/adapter/anthropic.go:172-499 | for every conversation the trip keeps the system text and, for each side, the tool results, the tool calls and the text, in order, whether or not it is idempotent |
| Conservation.EncodingKeepsBlocks | pkg/adapter/anthropic.go:189-254 | encoding distributes the blocks of each side over turns without losing, adding or reordering any |
| Conversation.PushBlocks | pkg/adapter/anthropic.go:245-254 | blocks join the last turn of the same role, or start a turn; no blocks start none |
| Conversation.BuildAssistantBlocks | pkg/adapter/anthropic.go:263-283 | non-empty text first, then one tool_use for each call with an id or a name, arguments that are not JSON becoming {} |
| Conversation.EncodeRequest | pkg/adapter/anthropic.go:172-216 | system and developer texts are gathered, every other message goes to its side in order |
| Conversation.AppendUserFromAnthropic | pkg/adapter/anthropic.go:428-452 | tool results become tool messages, then the joined text one user message unless empty |
| Conversation.AppendToolResults | pkg/adapter/anthropic.go:455-464 | only tool results are appended |
| Conversation.AssistantFromAnthropic | pkg/adapter/anthropic.go:467-499 | texts joined by lines, tool uses as calls in order, each absent when there is none |
| Conversation.AppendTurns | pkg/adapter/anthropic.go:370-383 | turns are read in order, those whose content cannot be decoded are skipped |
| Conversation.ParseRequest | pkg/adapter/anthropic.go:344-385 | a system message first if there is system text, then the turns |
| Wording.PartsAreJoined | pkg/adapter/anthropic.go:317-341 | in every conversation a message of any role whose content comes in parts is sent as the one with the string in which each part stands right after those before it |
| Wording.OtherContentIsItsText | pkg/adapter/anthropic.go:311-341 | other JSON content is sent as its text, absent content as an empty string |
| Wording.NoArgumentsAreEmptyObject | pkg/adapter/anthropic.go:263-283 | blank or malformed arguments are sent as {} |
| Wording.SystemTextIsAdded | pkg/adapter/anthropic.go:189-216 | a system or developer message adds its text to the system text on a line of its own, and no turn |
| Wording.AssistantTextIsAdded | pkg/adapter/anthropic.go:467-499 | one more text block in an assistant turn is one more line of the message read from it |
| Wording.UserTextIsAdded | pkg/adapter/anthropic.go:428-452 | likewise in a user turn, whose text comes last |
| Wording.AssistantTurnIsRead | pkg/adapter/anthropic.go:467-499 | a tool use is one more call, other blocks say nothing |
| Wording.UserTurnIsRead | pkg/adapter/anthropic.go:428-452 | a tool result comes before the text and after the results before it |
| Wording.ToolTurnIsRead | pkg/adapter/anthropic.go:455-464 | a turn of role tool is read as its tool results alone |
| Wording.UndecodableIsSkipped | pkg/adapter/anthropic.go:370-383 | a turn whose content cannot be decoded says nothing |
| BreakerRuns.NoAllowWhileOpen | pkg/core/breaker.go:64-113 | in every run with a clock that never goes back, once an upstream opens at time t no Allow for it is granted before t + OpenFor, whatever other calls, results, probes, releases and sweeps come between, provided the idle time to live covers OpenFor |
| BreakerGrants.AllowGrantedIff | pkg/core/breaker.go:64-91 | in every run Allow lets a request through exactly when it finds the upstream closed, new or just dropped, open for OpenFor, or half-open with a probe slot free, and this is the state it leaves |
| BreakerGrants.SelectableIff | pkg/core/breaker.go:95-113 | Selectable says yes in the same cases but whatever the slots, of which it takes none |
| BreakerGrants.ReportsLeave | pkg/core/breaker.go:117-183 | what a result, a probe result and a release leave of an upstream found closed, open or half-open, slots included |
| BreakerGrants.KnownIffSeen | pkg/core/breaker.go:195-280 | in every run exactly those upstreams are known that were called since any 256th call, or sweep, more than an hour after their last result; calls other than results do not renew |
| BreakerGrants.EvictsIffDrops | pkg/core/breaker.go:216-233 | so an event drops an upstream exactly when it is a 256th call, or a sweep, more than an hour after that |
| BreakerGrants.OpenSinceThen | pkg/core/breaker.go:124-152 | OpenFor counts from the event that opened the upstream: nothing else moves it |
| BreakerForgets.NeverEarlyIffTtlCovers | pkg/core/breaker.go:195-233 | that proviso is exact, to the nanosecond: no run from the empty registry lets an upstream through early if and only if the idle time to live covers OpenFor |
| BreakerForgets.OpenForgotten | pkg/core/breaker.go:195-233 | for every longer OpenFor and every upstream, a run of failing probes, calls for another upstream up to the 256th visit and one Allow lets it through early |
| BreakerRuns.StaysOpen | pkg/core/breaker.go:64-183 | before its time an open upstream stays open through any one event and Allow refuses it |
| FailureWindow.FailuresAreSince | pkg/core/breaker.go:64-183 | in every run a closed breaker has counted exactly the failing results since the last success, the last Allow or Selectable more than SampleWindow after the window's start, and the last time it was dropped as idle |
| FailureWindow.OpensIff | pkg/core/breaker.go:140-183 | in every run, whatever other calls and sweeps come between, a call on an upstream that it finds closed leaves it open exactly when it is a failing result that brings this count to FailureThreshold |
| FailureWindow.OpensOnlyOnFailure | pkg/core/breaker.go:124-183 | nothing else opens an upstream but a failing Record while half-open |
| FailureWindow.OpensOnlyAfterFailures | pkg/core/breaker.go:124-183 | an upstream that is not half-open opens only after FailureThreshold failing results with no success between |
| FailureWindow.BothCountedIff | pkg/core/breaker.go:64-75 | two successive failing results are both counted exactly when between them nobody asks for the upstream later than SampleWindow after the first and it is not dropped, however far apart they are themselves |
| BreakerForgets.FarApartFailuresOpen | pkg/core/breaker.go:140-183 | for every configuration, spacing and upstream, FailureThreshold failing probes that far apart open it (with 256 or more of them, up to the time to live apart) |
| BreakerRuns.LeavesHalfOpenIff | pkg/core/breaker.go:124-139 | in every run a half-open upstream stops being so without opening exactly when it is dropped as idle, or this is the successful Record that makes SuccessThreshold of them in its half-open period, in which no failing one came |
| BreakerForgets.HalfOpenForgotten | pkg/core/breaker.go:195-233 | for every configuration and upstream a run without any success fills all its probe slots and reaches the 256th visit, whose Allow forgets it and is granted past the probe limit |
| BreakerRuns.SuccessesCounted | pkg/core/breaker.go:124-139 | while half-open the success counter is the number of successful Records of the period, of which no failing one has come |
| BreakerRuns.ProbesAreNeutral | pkg/core/breaker.go:154-183 | an active probe never closes a breaker and never changes a slot or the success count, except that a due successful one enters half-open and zeroes them |
| Breaker.NewConfig | pkg/core/breaker.go:42-50 | the probe limit is at least one |
| Breaker.UpstreamBreaker.AllowCall | pkg/core/breaker.go:65-83 | Allow in place: closed grants, open waits for its time, half-open takes a slot if one is free |
| Breaker.UpstreamBreaker.AllowProbe | pkg/core/breaker.go:85-91 | a slot is taken only below the probe limit |
| Breaker.UpstreamBreaker.CanSelect | pkg/core/breaker.go:95-113 | Selectable advances the state as Allow does and takes no slot |
| Breaker.UpstreamBreaker.ReleaseSlot | pkg/core/breaker.go:117-121 | gives a slot back only while half-open and positive |
| Breaker.UpstreamBreaker.RecordResult | pkg/core/breaker.go:124-152 | a result in each state; half-open it gives back a slot, unguarded |
| Breaker.UpstreamBreaker.ProbeResult | pkg/core/breaker.go:160-183 | a probe result in each state |
| Breaker.UpstreamBreaker.Reset | pkg/core/breaker.go:186-190 | closed, all counts zero, both times now, last-seen time kept |
| Breaker.BreakerRegistry.BreakerFor | pkg/core/breaker.go:216-233 | every 256th visit first drops the entries idle for the time to live; a missing entry is made anew and closed |
| Breaker.BreakerRegistry.DropIdle | pkg/core/breaker.go:270-280 | exactly the entries last seen before the cut go |
| Breaker.BreakerRegistry.AllowUpstream | pkg/core/breaker.go:236-240 | one call on the registry changes the table as the state machine says, and no other breaker |
| Breaker.BreakerRegistry.SelectableUpstream | pkg/core/breaker.go:243-247 | likewise for Selectable |
| Breaker.BreakerRegistry.RecordUpstream | pkg/core/breaker.go:250-254 | likewise for Record |
| Breaker.BreakerRegistry.ProbeUpstream | pkg/core/breaker.go:257-261 | likewise for recordProbe |
| Breaker.BreakerRegistry.ReleaseUpstream | pkg/core/breaker.go:264-268 | likewise for Release |
| ProbeSlots.SlotsExactIffNoStrays | pkg/core/breaker.go:85-139 | in every run of any number of requests, the in-flight count of each half-open upstream equals its unreported probes after every step, and so stays in 0..ProbeConcurrency, exactly when no result crosses half-open periods |
| ProbeSlots.SlotsBounded | pkg/core/breaker.go:85-139 | without any such assumption the count never exceeds the probe limit nor the unreported probes |
| ProbeSlots.StepExactIff | pkg/core/breaker.go:117-139 | one step from exact counts leads to exact counts exactly when it is not a result that crosses periods |
| ProbeSlots.StrayUndercounts | pkg/core/breaker.go:124-129 | a crossing result leaves the count one short |
| ProbeSlots.CrossingResultGoesNegative | pkg/core/breaker.go:124-129 | a run exists in which a request admitted while closed reports during half-open and drives the count to -1 |
| ProbeSlots.SlotChange | pkg/core/breaker.go:64-139 | a granted Allow adds one slot below the limit, a Record takes one, a Release takes one if there is one, other calls take none |
| Upstreams.SharesAreExact | pkg/core/proxy.go:1092-1127 | with two or more enabled upstreams and positive total weight, each is chosen by exactly as many of the draws below the total as it weighs, negative weights counting as zero |
| Upstreams.OneOwner | pkg/core/proxy.go:1116-1126 | no draw belongs to two upstreams |
| Upstreams.ChosenIffOwned | pkg/core/proxy.go:1116-1126 | a draw chooses the upstream whose stretch of the weights it falls in, and no other |
| Upstreams.SelectUpstream | pkg/core/proxy.go:1092-1127 | nothing without an enabled upstream, the only one without a draw, a uniform draw when all weights are zero, else the owner of the draw; the return after the loop is never reached |
| Upstreams.EnabledInOrder | pkg/core/proxy.go:1094-1104 | exactly the enabled upstreams take part, each once for each time it is listed, in the order of the list |
| Upstreams.EvenWithoutWeights | pkg/core/proxy.go:1111-1114 | without any weight each is chosen by exactly one of as many draws as there are |
| Picking.PickHealthy | pkg/core/proxy.go:1134-1178 | it ends; it returns nothing unblocked exactly when no upstream is usable; what it returns is the weighted choice among the upstreams whose breaker would take the request less those that then refused; its last call is then its one granted Allow, and otherwise it holds no slot, whatever other requests do between its calls |
| Picking.NoPickMeansRefused | pkg/core/proxy.go:1155-1178 | it comes back blocked only when the breaker of every usable upstream refused, when asked or at the attempt |
| Picking.TakeOne | pkg/core/proxy.go:1163-1178 | each refused choice leaves the candidates, and the next is drawn by weight among the rest |
| Picking.AskSelectable | pkg/core/proxy.go:1155-1160 | exactly the usable upstreams are asked, and those answered yes kept in order |
| Handlers.HandleProxy | pkg/core/proxy.go:206-303 | handleProxy with its early returns: refused before the pick it makes no call; blocked it holds nothing; a request that cannot be built ends in one Release after its one granted Allow, a forwarded one in one Record, and one that picked nothing goes on without either |
| Handlers.HandlePassThrough | pkg/core/proxy.go:909-993 | handlePassThrough likewise, with the unread body as one more exit that releases |
| Handlers.ReleaseBreaker | pkg/core/proxy.go:1200-1205 | the one pending Allow is settled by one Release for the same upstream; without a breaker or a pick nothing is called |
| Handlers.RecordBreaker | pkg/core/proxy.go:1181-1196 | likewise by one Record, a success exactly when a response came with a status from 1 to 499 |
| HandlerSlots.HandlersAccountForSlots | pkg/core/proxy.go:1134-1205 | however the calls of any number of such requests are interleaved, with each other, with health probes and with sweeps, the run is one of the ticketed system and ends in the same registry; the slot counts stay within the limit and are exact all along exactly when no result crosses half-open periods |
| HandlerSlots.HandlersKeepTickets | pkg/core/proxy.go:1134-1205 | in every such run a ticket is out exactly to a request that has been granted its Allow and has not settled it |
| HandlerSlots.AllSlotsComeBack | pkg/core/proxy.go:1188-1205 | once all requests are through no ticket is out, and unless a result crossed periods no half-open upstream has a slot taken |
| HandlerSlots.RequestsAreHandled | pkg/core/proxy.go:206-303 | what the two handlers ensure of their calls is all that this needs, at any place in any run |
| Handlers.PairedUp | pkg/core/proxy.go:1188-1205 | events of other requests between the pick and the report do not disturb the pairing |
| RingMonitor.EveryInterleaving | pkg/plugin/oss/ring_buffer.go:58-104 | in every interleaving of Push, Pop and Close threads, with signals given to any sleeper, the buffer is a FIFO queue of at most its size, and no wakeup is lost: while some Pop sleeps there are as many pending Pop signals as items, likewise for Push and free slots, and after Close nobody sleeps |
| RingHistory.PopsGivePushes | pkg/plugin/oss/ring_buffer.go:58-94 | in every interleaving what the Pops have given is a beginning of what was pushed, told by the Push calls and their answers alone, no more than the size is under way, and the next Pop that gives an event gives the next one |
| RingHistory.HistoriesAreReal | pkg/plugin/oss/ring_buffer.go:70-91 | what the buffer has accepted and delivered is exactly what its callers pushed and were given |
| RingHistory.WaitersKeepTheirEvent | pkg/plugin/oss/ring_buffer.go:58-66 | a thread that waits in Push, or was woken in it, still has the event of its own last Push |
| RingHistory.AnsweredAs | pkg/plugin/oss/ring_buffer.go:58-94 | in every run a Push reports the close exactly after one, waits exactly while open and full, and else succeeds; a Pop gives an event exactly when one is under way, else reports the close or waits |
| RingHistory.ThreadsAfter | pkg/plugin/oss/ring_buffer.go:58-104 | only a call that waits leaves its thread asleep; a success wakes at most the thread it signals, a close wakes all |
| RingMonitor.NobodyIsStuck | pkg/plugin/oss/ring_buffer.go:58-104 | a thread sleeps beside work it could do only while a signal for its kind is pending, and never after Close |
| RingMonitor.StepKeepsInv | pkg/plugin/oss/ring_buffer.go:58-104 | each stretch of code under the lock keeps queue and wakeups |
| RingMonitor.DrainsAfterClose | pkg/plugin/oss/ring_buffer.go:67-104 | in every run, from a Close on nothing more is accepted, and what is delivered and held together stays what it was then, in order |
| RingMonitor.ClosedMeansDrained | pkg/plugin/oss/ring_buffer.go:79-104 | in every run a Pop reports the close exactly when the buffer is closed and all that was ever accepted has been delivered; after a Close any other Pop delivers the next |
| RingMonitor.OpenServes | pkg/plugin/oss/ring_buffer.go:58-94 | in every run, while open, a Push succeeds at once exactly when fewer than the size are undelivered, a Pop exactly when some are, giving the next; nobody is told it is closed |
| RingBuffers.RingBuffer.PushSection | pkg/plugin/oss/ring_buffer.go:58-75 | Push on the array and its indices, from its test to its return or wait, is one step of that monitor |
| RingBuffers.RingBuffer.PopSection | pkg/plugin/oss/ring_buffer.go:79-94 | Pop likewise |
| RingBuffers.RingBuffer.CloseBuffer | pkg/plugin/oss/ring_buffer.go:97-104 | Close marks the buffer and wakes every sleeper |
| RingBuffers.RingBuffer.Store | pkg/plugin/oss/ring_buffer.go:70-72 | the held items, read around the end of the array, gain the new one at the end |
| RingBuffers.RingBuffer.Take | pkg/plugin/oss/ring_buffer.go:88-91 | the oldest held item is taken and the others stay in order |
| RingBuffers.RingBuffer.constructor | pkg/plugin/oss/ring_buffer.go:44-55 | an empty open buffer of a positive size |
| LimitBounds.TokenBucketBound | pkg/plugin/oss/ratelimiter.go:140-194 | in every run with fixed configurations in which all users of a key have one rate, the requests admitted for it between times s and e never exceed max(rps, 0) times (1 + e - s), however many limits are dropped when idle and rebuilt full |
| LimitGrants.BucketGrantsIff | pkg/plugin/oss/ratelimiter.go:171-194 | in every run a request is admitted exactly when the key has a token left and, over every stretch that ends now, one request more stays within rps times one second more than the stretch: nobody is refused without need |
| LimitGrants.RecordedTokensAreCharged | pkg/plugin/oss/ratelimiter.go:197-211 | a recorded use lowers the tokens left by exactly its number, into debt if need be; requests and status calls cost none |
| LimitBounds.SlidingWindowBound | pkg/plugin/oss/limit_sliding.go:34-49 | in any stretch of one second at most twice max(rps, 0) requests are admitted for a key, drops and rebuilds included |
| LimitGrants.RefusedOnlyWhenFull | pkg/plugin/oss/limit_sliding.go:34-49 | in every run a request with a token left is refused only when the rule admits nothing or as many requests as its rate were admitted within less than a second |
| LimitKeys.TenantsAreBounded | pkg/plugin/oss/ratelimiter.go:115-168 | both bounds hold for every tenant and model under the rule that the four-step resolution gives, when no tenant contains the key separator |
| LimitBounds.LevelPays | pkg/plugin/oss/limit_bucket.go:38-58 | a call lowers the tokens its key could spend by exactly what it grants, sweeps and rebuilds included |
| LimitBounds.LevelGrows | pkg/plugin/oss/limit_bucket.go:38-48 | between calls that level grows no faster than the rate and never past the capacity |
| LimitBounds.CallKeepsSpent | pkg/plugin/oss/limit_sliding.go:34-49 | a call keeps the account that what was admitted in the last second is in the current window or in one full window before it |
| LimitWindows.SecondHoldsRateIff | pkg/plugin/oss/limit_sliding.go:19-49 | the window is fixed and not sliding: no second of any run admits more than max(rps, 0) if and only if the rule admits nothing, by its rate or its token limit |
| LimitWindows.WindowBursts | pkg/plugin/oss/limit_sliding.go:19-49 | for every positive rate and token limit a run admits exactly twice the rate within a tenth of a second |
| LimitWindows.OneWindowBound | pkg/plugin/oss/limit_sliding.go:19-49 | a stretch of any length in which no window of the key opens admits at most the rate |
| LimitVolleys.VolleyGranted | pkg/plugin/oss/ratelimiter.go:171-194 | requests in a row that a limit has room for are all granted and use up just that much |
| LimitKeys.KeysTellApart | pkg/plugin/oss/ratelimiter.go:151 | keys tell tenants and models apart when no tenant contains the separator |
| LimitKeys.SharedKeyIff | pkg/plugin/oss/ratelimiter.go:140-168 | two tenants and models with one key, whose rules admit something, are each kept to their own rule in every run exactly when the two rules have the same strategy and rate |
| LimitKeys.SameRateKeeps | pkg/plugin/oss/ratelimiter.go:140-168 | with the same rate each of the two is bounded by it in every run, their requests even together |
| LimitKeys.MakerOverrides | pkg/plugin/oss/ratelimiter.go:140-168 | otherwise a run lets one of them make the limit and the other past its own rule |
| LimitKeys.SplitsShare | pkg/plugin/oss/ratelimiter.go:151 | wherever the separator falls, different tenants and models share a key |
| LimitReload.ReloadKeepsThresholds | pkg/plugin/oss/ratelimiter.go:93-113 | a reload changes nothing for a key whose limit exists and is not dropped, neither its thresholds nor any answer |
| LimitReload.ReloadServesNewRule | pkg/plugin/oss/ratelimiter.go:93-168 | a key without a limit at its next visit, or whose limit that visit drops, is answered as by a limiter just made with the new configurations |
| LimitReload.ReloadBoundsAbsent | pkg/plugin/oss/ratelimiter.go:93-168 | from a reload on, a key without a limit is bounded by the rate it has now |
| LimitEviction.EvictionUnseen | pkg/plugin/oss/ratelimiter.go:140-168 | every call of every run is answered as by a limiter that never drops anything, as long as debts of recorded tokens are repaid whenever the key is dropped |
| LimitEviction.LightDebtsAreRepaid | pkg/plugin/oss/ratelimiter.go:140-168 | that is so for every sliding-window rule, and for token buckets whose token debt stays within 59 minutes of allowance |
| LimitEviction.InvisibleIffRepaid | pkg/plugin/oss/ratelimiter.go:140-168 | an idle limit of a rule that admits anything can be dropped unnoticed exactly when its token debt is repaid by then |
| LimitEviction.RequestsAreRefilled | pkg/plugin/oss/limit_bucket.go:38-48 | the request dimension is always full after the idle hour, so dropping it is never noticed |
| LimitObjects.TokenBucketCell.RefillNow | pkg/plugin/oss/limit_bucket.go:38-48 | tokens grow by the elapsed time times the rate up to the capacity; a clock that stands or goes back changes nothing |
| LimitObjects.TokenBucketCell.TakeNow | pkg/plugin/oss/limit_bucket.go:51-58 | takes all of n tokens or none |
| LimitObjects.TokenBucketCell.ConsumeNow | pkg/plugin/oss/limit_bucket.go:61-64 | takes n tokens even into debt |
| LimitObjects.WindowCell.AllowNow | pkg/plugin/oss/limit_sliding.go:42-49 | adds n only up to the limit |
| LimitObjects.WindowCell.AddNow | pkg/plugin/oss/limit_sliding.go:52-55 | adds n in any case |
| LimitObjects.RateLimiter.BucketFor | pkg/plugin/oss/ratelimiter.go:140-168 | every 256th visit drops what was idle for over an hour; the key is then found and marked, or made from the rule that applies now |
| LimitVisits.LimitedIffSeen | pkg/plugin/oss/ratelimiter.go:140-168 | in every run exactly those keys have a limit that were visited since any 256th visit more than an hour after their last |
| LimitObjects.RateLimiter.ResolveRule | pkg/plugin/oss/ratelimiter.go:116-135 | the first enabled configuration for the model, else for the tenant, else the global one, else the default |
| LimitRules.ResolvedByPosition | pkg/plugin/oss/ratelimiter.go:115-135 | by the positions of the configurations: the first enabled one for exactly the tenant and model, else the first for the tenant alone, else the first global one, else the default |
| LimitRules.OthersDoNotMatter | pkg/plugin/oss/ratelimiter.go:115-135 | a disabled configuration, or one for another tenant or model, could as well not be there |
| LimitObjects.RateLimiter.Allow | pkg/plugin/oss/ratelimiter.go:171-194 | refused on exhausted tokens before a request is counted; else one request is counted if it fits; no other key changes |
| LimitGrants.RemainingIsLeft | pkg/plugin/oss/ratelimiter.go:171-194 | the remaining number of an admitted request is how many more would be admitted at once |
| LimitObjects.RateLimiter.RecordTokens | pkg/plugin/oss/ratelimiter.go:197-211 | a positive number of tokens is charged unconditionally, any other number is not even a visit |
| LimitObjects.RateLimiter.Status | pkg/plugin/oss/ratelimiter.go:214-228 | reports the use of the key against the rule that applies now and a reset time one second ahead, changing only what a visit changes |
| LimitGrants.UsedIsSpent | pkg/plugin/oss/ratelimiter.go:214-228 | from a new limit as many requests are reported used as were admitted at once |
| LimitObjects.RateLimiter.Reset | pkg/plugin/oss/ratelimiter.go:231-236 | the key alone is forgotten |
| LimitObjects.RateLimiter.ReloadConfig | pkg/plugin/oss/ratelimiter.go:94-113 | only the configurations change |
| SessionRuns.SweepingIsUnseen | pkg/core/mcp_session.go:54-110 | on every run with a monotone clock each lookup is answered as by a table that never sweeps and calls a session live while no more than the time to live has passed since it last answered; the identifiers need not be fresh |
| SessionRuns.AnsweredIff | pkg/core/mcp_session.go:67-94 | a lookup is answered exactly when the id was created for this server and key, was not deleted since, and no pause between answered lookups exceeded the time to live |
| SessionRuns.AnswerSays | pkg/core/mcp_session.go:54-103 | an answer names the creating caller, server and key, the upstream id bound since, and the time of the lookup |
| SessionRuns.LookUpAgrees | pkg/core/mcp_session.go:69-94 | one lookup on a table that differs from the reference only in expired sessions gets the same answer and keeps it so |
| SessionRuns.MemoryIsHistory | pkg/core/mcp_session.go:54-110 | the reference remembers for each id its creator and the time it last answered |
| Sessions.SessionStore.GetSession | pkg/core/mcp_session.go:69-94 | the owner is checked before the age; an expired session is dropped, a live one renewed and returned as a copy; every 100th visit sweeps |
| Sessions.SessionStore.CreateSession | pkg/core/mcp_session.go:54-65 | a new session replaces any under its id |
| Sessions.SessionStore.SetUpstreamSession | pkg/core/mcp_session.go:97-103 | binds the upstream id of an existing session only |
| Sessions.SessionStore.Remove | pkg/core/mcp_session.go:106-110 | the session alone is gone |
| Sessions.SessionStore.SweepExpired | pkg/core/mcp_session.go:74-81 | exactly the expired sessions go |
| License.SamePayloadIff | pkg/license/license.go:48-68 | two licenses have the same payload exactly when they agree on everything but the features, and on the features cut at every comma; the shapes with and without a machine id never meet |
| License.PayloadTellsApart | pkg/license/license.go:48-68 | for features without commas only the empty list and a single empty feature are confused |
| License.CommaConfuses | pkg/license/license.go:57 | a comma inside a feature confuses it with two features |
| License.FramingDecodes | pkg/license/license.go:63-66 | the length-prefixed fields are decoded back from the payload, whatever they contain |
| License.FieldsInOrder | pkg/license/license.go:48-68 | the payload decodes to key, product, customer, the two limits in decimal, the two times, the features, "true" or "false", and the machine id if there is one, in this order |
| License.FrameInBytes | pkg/license/license.go:63-66 | a field is its length in decimal, a colon, the field and a semicolon |
| License.JoinsEqualIff | pkg/license/license.go:57 | feature lists join to the same text exactly when they agree once cut at every comma |
| License.ItoaInjective | pkg/license/license.go:53-54 | decimal texts of different numbers differ, negative ones included |
| License.CanonicalPayload | pkg/license/license.go:48-68 | the loop writes the frames of the nine fields, and of the machine id when there is one |
| AuditRuns.ChunksConserved | pkg/plugin/oss/audit_simple.go:58-155 | for each request id in every run, with storage failing at will, the chunks of its saved records in the order they were saved followed by its pending ones are exactly those submitted for it, in order |
| AuditRuns.OpeningsConserved | pkg/plugin/oss/audit_simple.go:58-155 | every log ever opened has been saved exactly once or is still pending |
| AuditRuns.AtMostOneRecord | pkg/plugin/oss/audit_simple.go:96-155 | a request to which nothing is submitted after its Finalize, MarkDisconnect or a Shutdown leaves at most one record |
| AuditRuns.ShutdownSavesAll | pkg/plugin/oss/audit_simple.go:144-155 | a shutdown that storage never refuses leaves nothing pending and every submitted chunk saved |
| AuditRuns.RecordsStamped | pkg/plugin/oss/audit_simple.go:39-44 | with a fingerprint function in force every saved record carries the fingerprint of what it says |
| AuditRecords.FinalizedSays | pkg/plugin/oss/audit_simple.go:96-115 | in every run a finalized request is saved with the status, body, tokens and duration given, the fields it was opened with, its chunks, and the disconnect mark only if one was reported; all stamped |
| AuditRecords.DisconnectedSays | pkg/plugin/oss/audit_simple.go:119-141 | a disconnected one is saved marked, with the reason given, the body reported before, and the other figures given, if any |
| AuditRecords.PendingSays | pkg/plugin/oss/audit_simple.go:58-141 | until then a pending log says what its request's events said, saves refused by storage included |
| AuditRecords.RefusedSavesNothing | pkg/plugin/oss/audit_simple.go:96-141 | a refused save, or one of a request that is not pending, saves nothing and keeps what is pending |
| Audit.SimpleAuditor.SubmitEvent | pkg/plugin/oss/audit_simple.go:58-70 | opens a log from the given one or an empty one, unless the request has one |
| Audit.SimpleAuditor.SubmitSSEChunk | pkg/plugin/oss/audit_simple.go:83-93 | appends the chunk to the request's log, opening one if needed |
| Audit.SimpleAuditor.FinalizeRequest | pkg/plugin/oss/audit_simple.go:96-115 | fills in, stamps and saves; a failed save keeps the log pending and is reported; a missing log is no error |
| Audit.SimpleAuditor.MarkDisconnect | pkg/plugin/oss/audit_simple.go:119-141 | marks, fills in what is given but not the response body, stamps and saves likewise |
| Audit.SimpleAuditor.ShutDown | pkg/plugin/oss/audit_simple.go:144-155 | saves the pending logs in some order up to the first failure; success means nothing is pending |
| GuardRuns.FailuresBounded | pkg/admin/auth.go:202-237 | if each failure directly follows an attempt that was let through, any interval no longer than the window holds, between resets, at most two fewer failures than twice the number that locks (which is two for a limit of one) |
| GuardRuns.AdvertisedIff | pkg/admin/auth.go:216-231 | the bound of 2 maxFails - 2 holds exactly for limits of at least two |
| GuardRuns.BoundIsReached | pkg/admin/auth.go:202-237 | for every limit of at least two a run reaches it |
| GuardRuns.LockedOut | pkg/admin/auth.go:202-231 | once locked, no attempt is let through for a window, whatever happens meanwhile short of a reset |
| GuardRuns.LockedIff | pkg/admin/auth.go:216-231 | within one window a key without failures is locked exactly once it has as many failures as lock, whatever other keys do |
| GuardRuns.PassesIff | pkg/admin/auth.go:202-231 | within one window of a key without failures an attempt is let through exactly until as many as lock have come |
| GuardRuns.LockEndsIff | pkg/admin/auth.go:202-214 | a lock is over exactly once more than a window has passed since it began |
| LoginGuard.MemoryLoginGuard.AllowAttempt | pkg/admin/auth.go:202-214 | an expired record is dropped and the attempt let through, else only a lock refuses |
| LoginGuard.MemoryLoginGuard.FailAttempt | pkg/admin/auth.go:216-231 | a failure starts a period, counts in it or locks from now on; other keys are untouched |
| LoginGuard.MemoryLoginGuard.ClearFailures | pkg/admin/auth.go:233-237 | the key alone is forgotten |
| LoginGuard.MemoryLoginGuard.constructor | pkg/admin/auth.go:178-189 | limits that are not positive become five failures and one minute |
| Sse.RoundTripIff | pkg/mcp/sse.go:29-89 | for every list of payloads with comment, field and empty lines between their frames, reading gives back exactly that list and then the end, if and only if no payload is empty, contains a line feed or ends in a carriage return |
| Sse.FramesRoundTrip | pkg/mcp/sse.go:29-89 | the direction of it that section 9.2.6 of the WHATWG HTML Living Standard promises, for a clean end and for a broken one |
| Sse.FrameShrinks | pkg/mcp/sse.go:29-76 | a frame gives back no more bytes than its payload has, and fewer of one that it cannot carry |
| Sse.MessagesAreNotEmpty | pkg/mcp/sse.go:41-45 | no message is ever empty |
| Sse.NextSSEMessage | pkg/mcp/sse.go:29-58 | reads exactly the next message and leaves the reader after its empty line; at the end it reports a clean end or the read error, an unfinished event being dropped |
| SseLines.DataLinesAreJoined | pkg/mcp/sse.go:29-58 | an event of data lines, with or without a space after the colon and ended by LF or CR LF, is read as their values joined by line feeds; empty values before the first other leave none |
| SseLines.UnfinishedIsDropped | pkg/mcp/sse.go:32-40 | an event that the stream ends in is dropped, also within a line |
| SseLines.OtherLinesAreSkipped | pkg/mcp/sse.go:46-56 | comments and other fields are skipped within an event too |
| Sse.WriteSSEMessage | pkg/mcp/sse.go:62-76 | on success the frame is written whole; on a failed write what was written is a beginning of it |
| SseLines.FrameIsText | pkg/mcp/sse.go:62-76 | a frame is "event: message", "data: " and the payload on lines, and an empty line |
| Sse.Reader.ReadLine | pkg/mcp/sse.go:32-38 | a line with its line feed, or the rest together with how the stream ends |
| DashboardFacts.OrderIrrelevant | pkg/plugin/dashboard.go:168-225 | the same samples in any order give the same dashboard, every panel of it |
| DashboardFacts.PanelsAddUp | pkg/plugin/dashboard.go:198-321 | p50 <= p95 <= p99; status classes, latency buckets, and streamed and other requests each add up to all requests, and the token split to all tokens; Failed is 4xx + 5xx + other |
| DashboardFigures.ClassesInFigures | pkg/plugin/dashboard.go:284-319 | the classes count the statuses from 200, 300, 400 and 500 on up to the next hundred and the rest; what failed is all but the first two |
| DashboardFigures.BucketsInFigures | pkg/plugin/dashboard.go:229-250 | the latency buckets are cut at 100, 300, 1000, 3000 and 10000 milliseconds |
| DashboardFigures.SumsInFigures | pkg/plugin/dashboard.go:198-224 | tokens and durations are summed as they are, and split by streaming |
| DashboardFigures.TopInFigures | pkg/plugin/dashboard.go:324-357 | at most eight models, each with its own requests, tokens and failures, those with more requests first and equals in byte order |
| DashboardFacts.LeftOutRanksAfter | pkg/plugin/dashboard.go:321-357 | a model is left out only when eight are shown, and it ranks after each of them |
| DashboardFacts.ModelsAddUp | pkg/plugin/dashboard.go:324-342 | the ranked models' requests add up to all requests, unnamed ones included |
| DashboardFacts.RankingUnique | pkg/plugin/dashboard.go:343-357 | the ranking does not depend on the order of the samples or of the map |
| DashboardFacts.PercentilesAscend | pkg/plugin/dashboard.go:252-257 | a larger percentile is never smaller |
| DashboardFacts.PercentileUnique | pkg/plugin/dashboard.go:252-257 | the two counting conditions determine the percentile |
| DashboardFacts.AverageRounds | pkg/plugin/dashboard.go:220-222 | the average of durations that are not negative is rounded to the nearest millisecond, halves up |
| Dashboard.ComputeDashboard | pkg/plugin/dashboard.go:168-225 | nothing for an unsupported window; else every panel is what its counting definition says, the trend included, and the list of alerts is empty |
| Dashboard.ComputeTrend | pkg/plugin/dashboard.go:174-217 | each slot counts the samples made within it and their tokens, up to the end of the range |
| DashboardFacts.TrendShowsAllIff | pkg/plugin/dashboard.go:174-217 | of the samples of the range the trend shows all requests exactly when none was made after its last slot, and then all tokens |
| DashboardFacts.HoursShowAll | pkg/plugin/dashboard.go:138-142 | for the last 24 hours that is so when the current hour began less than an hour ago |
| DashboardFacts.DaysShowAllIff | pkg/plugin/dashboard.go:143-150 | for a window of days every moment of the range has a slot exactly when the first midnight is no more than that many times 24 hours ago |
| Dashboard.Percentile | pkg/plugin/dashboard.go:252-257 | the result is a sampled duration with at least k percent of the samples at or below it and fewer than that below |
| Dashboard.ComputeLatency | pkg/plugin/dashboard.go:259-282 | six buckets by their bounds and three such percentiles, all zero without samples |
| Dashboard.LatencyBucketIndex | pkg/plugin/dashboard.go:238-250 | exactly one bucket holds each duration: from the previous bound, included, up to its own |
| Dashboard.ComputeStatus | pkg/plugin/dashboard.go:309-319 | each of the five classes counts the samples whose status is in it, anything outside 200 to 599 being other |
| Dashboard.ComputeTopModels | pkg/plugin/dashboard.go:324-357 | the first eight of all models that occur, by requests and then by name, each with its own requests, tokens and failures |
| Dashboard.ComputeTokens | pkg/plugin/dashboard.go:360-374 | prompt, completion, streamed and other sums over all samples |
| Dashboard.ComputeSummary | pkg/plugin/dashboard.go:194-224 | requests, failures, tokens, the rounded average and the success rate in tenths of a percent, all zero without samples |
| DashboardFacts.SuccessRateRounds | pkg/plugin/dashboard.go:223 | the success rate is within half a tenth of the share of 2xx and 3xx in percent, halves up, and lies between 0 and 100 |

## Left out

- JSON text: payloads are decoded values or undecodable; tool arguments and schemas are opaque texts, a JSON value is identified by its canonical text, and white space around arguments is taken as already trimmed.
- HTTP, sockets, deadlines, flushing, TLS, CORS, logging, metrics and storage engines; storage is a sequence of saved records and a success flag, streams are byte sequences with an ending.
- Streams that end without `[DONE]`: the handler then never calls Finish, so the complete-stream theorems are about runs that include it.
- Anthropic's rule that content blocks come one after another: the writer keeps all blocks open until Finish, and balance is what is proved.
- The other fields of requests and chunks: sampling parameters, tools, tool choice, metadata, object types, choice indices, timestamps, prompt token counts; the encoding of whole responses and of errors.
- Floating point rounding: the rate limiter computes over reals, one clock reading per call, and so does the dashboard's success rate.
- Integer widths: counters and sums do not overflow, and time differences do not saturate.
- Token-per-minute bounds: recorded tokens are charged after the fact without limit, so that there is none to prove; what they cost and its effect on admission and eviction is proved.
- Which sleeping thread a Signal wakes is any of them, which includes the first-in order of Go's runtime; fairness and progress of the scheduler are not modelled.
- The random draws, UUIDs, Ed25519 signature, fingerprint hash and password checks are arguments or arbitrary functions.
- The two times of a license are their RFC 3339 texts, so that distinct instants with the same text are the same.
- An audit log given to Submit is copied: that its caller could still change it through the shared pointer is not modelled; request fields other than those the assembler fills in are one opaque text.
- `Dashboard.ComputeDashboard`: what the local time zone says of hours, midnights and labels is an argument; the library sort is an insertion sort on values, which the comparison makes unique.
- `Dashboard.ComputeTopModels`: the per-model counters are values in a map instead of shared records.
- `Picking.PickHealthy`: the breaker registry is called one step at a time and other requests' events between the calls are an arbitrary argument.
- `Handlers.HandleProxy`: whether the routing context, the body and the outbound request are at hand and what forwarding ends in are arguments; retries inside the forwarding and the response handling after the report are not modelled.
- `Conversation.ParseRequest`: block contents that are images or other kinds are dropped as the code does; a tool result's content is its text.
- `Sse.WriteSSEMessage`: a write either takes all its bytes or none.
- RBAC, tenant, model and privacy management, configuration defaults, migrations, the enterprise package and the web interface: single checks or code that is not visible.
