# Proxy kernels, verified

The repository is a proxy between coding clients, chat front ends and model providers. Most of it
is plumbing; underneath are small stateful kernels whose promises speak about every run, every
chunking or every history. This project models those kernels and proves the promises.

Each kernel has up to two layers. A module of functions and lemmas describes it as a state machine
whose steps are the stretches of code between two awaits, and proves what holds in every reachable
state. A class with the original's fields has a method for each function modelled; each method is
proved to move the fields exactly as the machine steps (`ensures ... == Step(old(...), ...)`), so
every theorem about runs applies to the object. Ghost fields hold the history the theorems speak
about: all grants, all executions, all sightings, all sessions created.

| kernel | source | files |
|---|---|---|
| strict sliding window | core/rate_limit.py | `SlidingWindow.dfy` |
| provider retry loop | providers/rate_limit.py | `ProviderRetry.dfy` |
| compacting queue and worker | messaging/limiter.py | `MessageQueue.dfy`, `MessageWorker.dfy` |
| transcript and renderer | messaging/transcript.py | `Transcript.dfy`, `TranscriptBlocks.dfy`, `TranscriptTools.dfy`, `TranscriptBuffer.dfy`, `TranscriptRender.dfy` |
| line framing and capped reads | cli/session.py, api/web_tools/outbound.py | `StreamReads.dfy` |
| redirect loop | api/web_tools/outbound.py | `WebFetch.dfy` |
| Codex de-duplication | cli/adapters/codex.py | `CodexDedup.dfy`, `CodexEmission.dfy`, `CodexParser.dfy` |
| index queue | api/graphify/graphify_coordinator.py | `IndexQueue.dfy`, `IndexCoordinator.dfy` |
| session pool | cli/manager.py | `SessionManager.dfy` |
| session store | messaging/session.py | `StoreProtocol.dfy`, `SessionStore.dfy` |
| model ids, catalog, routing | four files | `ModelIds.dfy`, `ModelCatalog.dfy` |

`Base.dfy` holds Option, Result and the clock; `Strings.dfy` the few string operations.

## How the outside world appears

Time is a real number read from a clock that never goes backwards, and a sleep lasts at least as
long as asked; the event-loop clock and the monotonic clock are one. Code between two awaits is
atomic; at every await other tasks may take any number of steps. External calls, random jitter,
generated ids, disk writes and DNS answers are arbitrary values or function parameters. Decoding
and stripping a line, joining a URL and escaping the truncation marker are arbitrary functions.
JSON encoding is the identity on its data. Python exceptions become Option, Result or an outcome
datatype.

## Where the code does less than its comments say

Each of these is the code's behaviour, kept as it is. The lemmas named show a failing input, or say
exactly when the promise holds, or both.

- The limiter bounds every half-open window. "Any interval" is false: a grant exactly one window
  old is evicted, so a closed window can hold one too many (`ClosedWindowsCanOverflow`,
  `ClosedWindowsIff`, `ClosedBoundKeptIff`).
- Draining the index queue promises to resolve the in-flight future. Cancelling the worker clears
  that field first, so the future stays pending whenever indexing was under way
  (`DrainResolvesAllIff`, `DrainLeavesInFlight`).
- A start for an unregistered project raises after it has queued the project and before it wakes
  the worker (`StartKeepsWakeupIff`, `UnregisteredStartStalls`).
- The session pool is sound exactly for careful calls: a real id that is already in use, a generated
  id that collides, or a cancellation inside `stop` breaks it (`StepSoundIff`, `ReusedRealIdLeaks`).
- Disk writes run outside the lock, and nothing stops a second from starting before the first has
  ended. They can end in the wrong order and lose data: exactly when a write starts while one in
  flight carries another memory. Removing an empty tree does not schedule a save
  (`StepHealthyIff`, `LossReachable`, `OverlappingWritesLose`, `EmptyTreeRemovalIff`).
- After a failed timer write the store is dirty and no timer is armed, so nothing is saved until the
  next change or flush (`OwedIffArmedOrFailed`, `FailedWriteLeavesNoTimer`).
- A foreign item can silence a message, or be silenced, when its type and id together spell the
  message's key: its type is `message_output_index`, alone or followed by a colon and more. Type and
  id of two items can also run together alike, because types may hold colons
  (`EmittedIffNoCollision`, `TypeKeyForgesIff`, `TypeKeysEqualIff`, `ForeignTypeSilencesMessage`).
- Messages are told apart by scope, and a scope is not a response. One that is open is kept whatever
  response id the next event carries, and only `response.completed` and `response.failed` close it:
  after an error, a failed turn or a dropped stream the next response's message at the same index is
  lost. A response id used again reopens the old scope (`OtherResponseSilencesIff`,
  `UnclosedResponseSilencesNext`, `ScopesSharedIff`). With streams that close each response before
  another id appears the documented behaviour holds (`OtherResponsesNeverSilence`,
  `EmittedOncePerResponse`).
- A tool result can close the wrong subagent: ids match by prefix, a result without id closes an
  innermost subagent without id, and an unknown id that mentions "task" does so too
  (`ResultIsExactIff`, `PrefixClosesInner`, `PrefixClosesRunning`, `MissingIdClosesRunning`,
  `TaskLikeIdClosesRunning`).
- A rendering exceeds its limit exactly when the status alone is too long and the fallback does not
  fit either; a tail cap of 3 or less is not honoured (`LimitKeptIff`, `LongStatusOverflows`,
  `TailHonoursCapIff`, `SmallCapOverflows`).
- A model whose name ends in the context marker routes back only through its marked id. Listed as
  marked, it adds a second slug that routes to the model without the marker
  (`AdvertisedIdRoutesBackIff`, `OwnMarkerIsLost`, `OneSlugIff`, `MarkedTwinAddsSlug`). A provider
  named like a gateway prefix would shadow its own models. No shipped provider is, but custom modules
  may register any id (`PlainRefRoutesIff`, `ShippedProvidersArePlain`).
- The aiohttp reader pulls one chunk more than the httpx reader exactly when the stream has another
  chunk and the cap is reached without cutting one, or is not positive (`ExtraChunkIff`). The bytes
  returned are the same.
- The statuses 408 and 429 are retried in a plain HTTP status error and not in a subclass of the API
  client's error, where only 5xx codes are accepted (`RetriedIff`, `SameFateIff`,
  `TimeoutStatusMeetsTwoFates`). The client's own rate-limit and connection errors have classes of
  their own, which are retried.

## Model

| member | source | states |
|---|---|---|
| SlidingWindow.RunsRespectEveryWindow | core/rate_limit.py:10-53 | for every non-decreasing sequence of clock readings, every half-open window of one span holds at most `limit` grants |
| SlidingWindow.RunsAreSpaced | core/rate_limit.py:33-53 | in every run any limit + 1 consecutive grants span at least one window |
| SlidingWindow.GrantIffSafe | core/rate_limit.py:40-46 | the rule grants iff granting keeps the whole history spaced: never too much, never too little |
| SlidingWindow.RefusalExact | core/rate_limit.py:46-53 | a refusal's wait is positive, at most one span, and exact: refused at every earlier time, granted at every later one |
| SlidingWindow.TrimmedVerdict | core/rate_limit.py:36-48 | the trimmed deque answers exactly what the unbounded history would |
| SlidingWindow.ClosedWindowsCanOverflow | core/rate_limit.py:10-20 | two grants one window apart with limit 1: the bound fails for a closed interval |
| SlidingWindow.ClosedWindowsIff | core/rate_limit.py:38-39 | closed windows obey the bound iff no grant came exactly one span after the grant `limit` places before |
| SlidingWindow.ClosedBoundKeptIff | core/rate_limit.py:38-46 | a grant keeps the closed bound iff the grant `limit` places back is not exactly one span old |
| SlidingWindow.StrictSlidingWindowLimiter.Create | core/rate_limit.py:22-31 | construction fails iff limit or window is not positive |
| SlidingWindow.StrictSlidingWindowLimiter.Attempt | core/rate_limit.py:36-48 | one pass of the locked section gives the naive verdict over the whole history and records exactly a grant |
| SlidingWindow.StrictSlidingWindowLimiter.AcquireAlone | core/rate_limit.py:33-53 | a sole owner gets exactly one grant, at the time it returns, after at most one sleep |
| ProviderRetry.RetryableUpstreamStatus | providers/rate_limit.py:23-68 | whichever exception it is read from, a status to retry on is 408, 429 or 5xx |
| ProviderRetry.RetriedStatuses | providers/rate_limit.py:23-68 | plain HTTP errors are retried iff 408, 429 or 5xx, API subclasses iff 5xx, rate-limit, connection and plain API errors always, others never |
| ProviderRetry.SameFateIff | providers/rate_limit.py:54-68 | a status meets the same fate in both classes iff it is neither 408 nor 429 |
| ProviderRetry.TimeoutStatusMeetsTwoFates | providers/rate_limit.py:26-31 | 408 is retried in one class and not in the other |
| ProviderRetry.AttemptBudget | providers/rate_limit.py:288-340 | of the tries of a finished call exactly those that failed retryably within the budget were followed by another; so the last one succeeded, failed for good, or used the budget up |
| ProviderRetry.BackoffElapses | providers/rate_limit.py:317-337 | call n starts at least the sum of all earlier delays after the first call |
| ProviderRetry.TotalBackoff | providers/rate_limit.py:317-337 | the total backoff lies between the capped geometric sum and that sum plus one jitter a retry |
| ProviderRetry.BackoffClosedForm | providers/rate_limit.py:317-318 | while the cap is not reached the sum is base * (2^n - 1) |
| ProviderRetry.DefaultBackoffBudget | providers/rate_limit.py:259-269 | four retries with base 2, cap 60 and jitter 1 spend between 30 and 34 seconds in backoff |
| ProviderRetry.TriesRespectWindow | providers/rate_limit.py:209-217 | any limit + 1 tries of one call span at least one window, whoever shares the history |
| ProviderRetry.CallsRespectWindow | providers/rate_limit.py:209-217 | of the tries of any number of calls of the retry loop that share one limiter, at most `limit` start in any half-open window; that no two calls hold one slot follows from the owner the loop records with each slot |
| ProviderRetry.GlobalRateLimiter.Create | providers/rate_limit.py:89-123 | construction fails iff an argument is out of range; no proactive window iff the rate limit is 0 |
| ProviderRetry.GlobalRateLimiter.SetBlocked | providers/rate_limit.py:219-227 | the block ends `seconds` after now and overwrites the earlier one |
| ProviderRetry.GlobalRateLimiter.WaitIfBlocked | providers/rate_limit.py:187-207 | returns with a slot taken at the present moment; a wait it reports reached the end of the block it saw |
| ProviderRetry.GlobalRateLimiter.TryOnce | providers/rate_limit.py:292-337 | one turn: own slot at the start of the call, and on a retryable failure a reactive block of the right length is set for everybody and slept off |
| ProviderRetry.GlobalRateLimiter.ExecuteWithRetry | providers/rate_limit.py:259-340 | the tries are paced, use distinct slots of the shared history in order and in the name of this call, and decide the result |
| MessageQueue.RunsExplained | messaging/limiter.py:119-128 | in every run deque and map are one ordered map: same keys, no duplicates, complete batches, latest func, order by first enqueue since the last pop (front first) |
| MessageQueue.EnqueueExplained | messaging/limiter.py:246-262 | compaction keeps the key's place, takes the new func and appends the futures |
| MessageQueue.ServesFirst | messaging/limiter.py:127-128 | the pop never misses, and takes the pending key that ranks before all others |
| MessageQueue.FrontIsServedNext | messaging/limiter.py:246-262 | a new key that asks for the front is served next, with its own func and futures |
| MessageQueue.BackIsServedLast | messaging/limiter.py:246-262 | one that does not is served next iff nothing else is pending |
| MessageQueue.CompactionKeepsPlace | messaging/limiter.py:246-262 | a pending key keeps its place, takes the new func and gains the futures |
| MessageQueue.RunsConserve | messaging/limiter.py:119-150 | over every run each future is exactly where the bookkeeping says and is settled by its own batch only |
| MessageQueue.OnePlaceEach | messaging/limiter.py:246-262 | every future is in exactly one of queue, flight, executed; unresolved before its execution, not pending after |
| MessageQueue.BatchSharesOutcome | messaging/limiter.py:145-154 | all futures compacted under a key since its previous pop get the outcome of one execution of the latest func, unless cancelled; no other execution holds them |
| MessageQueue.FinishResolvesBatch | messaging/limiter.py:147-154 | the end of an execution leaves no waiter of its batch pending |
| MessageQueue.SettledForGood | messaging/limiter.py:148-149 | a settled future never changes again |
| MessageWorker.NextSendRespects | messaging/limiter.py:131-142 | waiting for the latest pause alone respects every earlier pause |
| MessageWorker.MessagingRateLimiter.EnqueueInternalMulti | messaging/limiter.py:246-262 | the fields move as the queue machine's enqueue step |
| MessageWorker.MessagingRateLimiter.EnqueueOne | messaging/limiter.py:264-277 | a fresh pending future joins the back of the queue under its dedup key, or under the generated one |
| MessageWorker.MessagingRateLimiter.TakeBatch | messaging/limiter.py:127-128 | popleft and map pop are the machine's take step; the batch popped is the one in flight |
| MessageWorker.MessagingRateLimiter.Resolve | messaging/limiter.py:147-154 | the resolving loop is the machine's finish step, on all futures at once |
| MessageWorker.MessagingRateLimiter.AwaitSlot | messaging/limiter.py:130-142 | exactly one send slot, not before the end of the latest flood pause, whatever other tasks do |
| MessageWorker.MessagingRateLimiter.SendAndResolve | messaging/limiter.py:143-183 | one execution of the batch in flight; a flood error, and nothing else, sets a pause at least as long as asked |
| MessageWorker.MessagingRateLimiter.WorkerTurn | messaging/limiter.py:114-199 | a turn serves the batch that was due, with one send; all sends respect all pauses and the window |
| Transcript.RunsAgree | messaging/transcript.py:343-524 | over every run both stacks agree entry by entry, and each non-empty chunk at depth 0 landed in one segment of its kind, in arrival order, and nothing else did |
| Transcript.ChunkFate | messaging/transcript.py:347-404 | a chunk is dropped iff it is empty or a subagent is open; otherwise it lands at the segment open at its index or a new one |
| TranscriptBlocks.ChunkJoinsOpener | messaging/transcript.py:358-399 | a kept chunk lands in the segment of the event that opened its block, and in a new one when no block is open at its index |
| TranscriptBlocks.ChunksShareSegmentIff | messaging/transcript.py:358-461 | in every run two kept chunks of one kind at one index share a segment iff no event in between ended the block, as read off the events |
| TranscriptBlocks.ChunkFollowsStart | messaging/transcript.py:358-399 | the first chunk after a start lands in the segment of that start |
| TranscriptBlocks.UnindexedChunkIsAlone | messaging/transcript.py:368-399 | a chunk without an index lands in a segment of its own |
| TranscriptBlocks.BlockStopBetween | messaging/transcript.py:450-461 | a run in which two chunks share a segment across a block stop, because the stop closed a tool at the same index |
| TranscriptTools.RunsShowTools | messaging/transcript.py:406-524 | over every run the segments other than text are, in order, exactly the tool calls outside subagents, the subagents, the shown results with the name last used for their id, and the errors |
| TranscriptTools.RunsCountInside | messaging/transcript.py:147-153 | each subagent segment counts exactly the tools called while it was the innermost one open: how many, which, which last |
| Transcript.PopShrinksIff | messaging/transcript.py:271-331 | a pop leaves a prefix of the stack, a proper one iff some open id matches |
| Transcript.FastPathAgrees | messaging/transcript.py:285-317 | the fast path for the top entry gives the result of the general scan |
| Transcript.PushedStacks | messaging/transcript.py:256-269 | a push keeps both stacks aligned with the subagents created |
| Transcript.SyntheticKeysDiffer | messaging/transcript.py:256-269 | subagents without id that are open together have different keys |
| Transcript.ToolAgrees | messaging/transcript.py:406-488 | a tool use, whether it opens a subagent or is recorded as a call, keeps landed chunks and stacks consistent |
| Transcript.RunsCountTools | messaging/transcript.py:406-488 | conservation: over every run each tool use other than Task is counted exactly once, by its own segment or by the subagent it ran in |
| Transcript.RoughIsExactIff | messaging/transcript.py:276-303 | the topmost rough match is the entry with the id itself iff no other open id above that is a prefix or an extension |
| Transcript.ResultIsExactIff | messaging/transcript.py:490-508 | a whole result event closes the subagent with its own id, or nothing, iff: nothing is open; or it has no id and the innermost subagent has one; or no open id above its own is prefix-related and the synthetic-id reconciliation does not fire |
| Transcript.PrefixClosesInner | messaging/transcript.py:276-331 | a run in which a result closes an inner subagent instead of the finished outer one |
| Transcript.PrefixClosesRunning | messaging/transcript.py:276-331 | a run in which an ordinary tool's result closes the running subagent |
| Transcript.MissingIdClosesRunning | messaging/transcript.py:319-331 | the same for a result and a Task without ids |
| Transcript.TaskLikeIdClosesRunning | messaging/transcript.py:498-508 | the same for an unknown id that mentions "task" |
| Transcript.PrefixFreeRunsAreExact | messaging/transcript.py:256-331 | with ids that are not prefixes of one another every run tracks exactly the open Tasks |
| TranscriptBufferObject.TranscriptBuffer.SubagentPush | messaging/transcript.py:256-269 | the fields move as the specification's push |
| TranscriptBufferObject.TranscriptBuffer.SubagentPop | messaging/transcript.py:271-331 | both stacks are cut to the specified prefix, and the result says whether they shrank |
| TranscriptBufferObject.TranscriptBuffer.ApplyResult | messaging/transcript.py:490-520 | a tool result closes subagents, with the synthetic-id reconciliation, and records the result segment |
| TranscriptBufferObject.TranscriptBuffer.Apply | messaging/transcript.py:343-524 | every event moves the fields as specified and keeps stacks and landings consistent |
| TranscriptRender.FirstFitIsLongest | messaging/transcript.py:552-562 | the first candidate that fits is the longest suffix of segments that fits, and a true tail of the full text |
| TranscriptRender.LimitKeptIff | messaging/transcript.py:538-581 | a truncated rendering keeps the limit iff the status fits by itself or the marker with the stripped status does |
| TranscriptRender.LongStatusOverflows | messaging/transcript.py:576-581 | a rendering that exceeds its limit |
| TranscriptRender.LastResort | messaging/transcript.py:564-581 | with no fitting suffix: exactly `limit` characters ending in the newest segment's tail when the budget allows, else marker and status, else the status; the untrimmed branch is unreachable |
| TranscriptRender.KeepTail | messaging/transcript.py:552-581 | the dropping loop returns the longest fitting suffix or the last resort |
| TranscriptRender.ShownInOrder | messaging/transcript.py:528-536 | the segments shown keep their order |
| TranscriptRender.JoinInOrder | messaging/transcript.py:541-545 | joined texts follow each other, separated by one newline |
| TranscriptRender.Render | messaging/transcript.py:526-581 | everything when it fits, else the truncation; and exactly when the limit is exceeded |
| TranscriptRender.TailHonoursCapIff | messaging/transcript.py:50-54 | a per-segment tail cut honours its cap iff nothing is cut or the cap exceeds 3, and then uses it fully |
| TranscriptRender.SmallCapOverflows | messaging/transcript.py:50-54 | a cap of 3 makes a text longer |
| StreamReads.SplitRoundTrip | cli/session.py:174-184 | gluing the lines of a stream with newlines gives the stream back |
| StreamReads.SplitUnique | cli/session.py:174-184 | newline-free lines and rest are recovered exactly from their gluing |
| StreamReads.FramingExtends | cli/session.py:174-189 | framing is incremental: more input only extends what was framed before |
| StreamReads.DrainLines | cli/session.py:176-189 | the inner loop hands on exactly the complete lines of the buffer and keeps the rest |
| StreamReads.FrameLines | cli/session.py:152-189 | for every chunking the lines handed on are the non-blank lines of the whole stream, in order, the unterminated last one included |
| StreamReads.HandedOnHas | cli/session.py:184-189 | a text is handed on iff it is not blank and some line decodes to it |
| StreamReads.LinesAreWritten | cli/session.py:160-189 | the lines of a stream are what was written between newlines, an unterminated last one only if not empty |
| StreamReads.DrainStderrBounded | cli/session.py:69-95 | keeps exactly the first max_bytes of the stream and still consumes every chunk to end of file |
| StreamReads.ReadResponseBodyCapped | api/web_tools/outbound.py:76-104 | returns exactly the first cap bytes for every chunking and pulls no chunk once they are complete |
| StreamReads.ReadAiohttpBodyCapped | api/web_tools/outbound.py:157-172 | the same bytes; and exactly how many chunks are pulled |
| StreamReads.ExtraChunkIff | api/web_tools/outbound.py:157-172 | aiohttp pulls as many chunks as httpx or one more; one more iff there is another chunk and the cap is reached without cutting one, or is not positive |
| WebFetch.RunWebFetch | api/web_tools/outbound.py:210-260 | every request goes to the stripped location of its predecessor, joined to the URL that answered, and to addresses validated in that hop, at most 11 in all; the outcome is that of the first hop that does not redirect on |
| WebFetch.OutcomeDetermined | api/web_tools/outbound.py:216-259 | the contract admits one outcome and one number of hops for a network |
| WebFetch.TooManyIff | api/web_tools/outbound.py:236-252 | the limit is reported iff the network offers ten located redirects and then another one |
| CodexDedup.IndexKeyInjective | cli/adapters/codex.py:486-489 | scope and index can be read back from the key, even when ids contain colons |
| CodexDedup.TypeKeyForgesIff | cli/adapters/codex.py:436-453 | a type:id key equals an index key iff type and id spell it: the type is the index prefix and the id the rest, or the type goes on with a colon and a part of the rest |
| CodexDedup.TypeKeysEqualIff | cli/adapters/codex.py:436-453 | two type:id keys are equal iff the pairs are, or one type extends the other by a colon and text that moved over from the id |
| CodexDedup.ForeignTypeSilencesMessage | cli/adapters/codex.py:436-453 | such a type does silence a message |
| CodexDedup.ScopesSharedIff | cli/adapters/codex.py:456-466 | two scopes of a run coincide iff both were opened under the same response id; scopes opened without one are never used again |
| CodexDedup.EmittedIffNoCollision | cli/adapters/codex.py:256-320 | over every run, whatever types and ids occur, an offered message or tool item is emitted iff no earlier sighting collides with it: same index of the same scope, type and id that run together alike, or a type and id that spell the message |
| CodexDedup.SameScopeIff | cli/adapters/codex.py:456-470 | two sightings are in one scope iff, read off the event list, nothing closed it between their events or both scopes were opened under one id |
| CodexDedup.EmittedIffFirstSighting | cli/adapters/codex.py:256-320 | unless some type is the index prefix alone or before a colon: a message at an output index is emitted iff no earlier event that shares its scope sighted that index, streamed or offered |
| CodexDedup.OtherResponseSilencesIff | cli/adapters/codex.py:456-470 | whatever response ids two events carry, the earlier sighting silences the later offer at its index iff the events share a scope |
| CodexDedup.UnclosedResponseSilencesNext | cli/adapters/codex.py:456-459 | a run in which a response that never completed silences the next one's message |
| CodexDedup.OtherResponsesNeverSilence | cli/adapters/codex.py:256-320 | when each scope is closed before another id appears, sightings of other responses silence nothing |
| CodexDedup.EmittedOncePerResponse | cli/adapters/codex.py:256-320 | when moreover every event carries its response's id, a message is emitted iff its index was not sighted before in that response: at most once, never after its deltas, otherwise exactly once |
| CodexDedup.OfferEmitsIff | cli/adapters/codex.py:399-416 | in every good state an offered item extends the output, unless it has a key and an earlier sighting collides with it |
| CodexDedup.DoneEmitsIff | cli/adapters/codex.py:293-302 | after every run an item-done event emits exactly its item, unless an earlier sighting collides with it |
| CodexDedup.RunsGood | cli/adapters/codex.py:399-433 | in every run the seen set is exactly the keys of the sightings, and each offer was judged by the earlier ones |
| CodexDedup.RunsOutput | cli/adapters/codex.py:399-416 | over every run no tool item with an id is emitted twice, emitted sightings stand for items of the output in order, and every output item with an id has its sighting |
| CodexDedup.OutputItemsDiffer | cli/adapters/codex.py:399-416 | two output items with ids are never the same message of a scope, nor items whose type and id run together alike |
| CodexEmission.RunsRecordSightings | cli/adapters/codex.py:256-320 | over every run each event that carries a message at an index, or an item with an id, leaves its sighting under its own number, and there are no others |
| CodexEmission.CompletedEmits | cli/adapters/codex.py:303-320 | after every run a completed response adds, in order, exactly its items that have no key or collide neither with an earlier sighting nor with an earlier position of the same list |
| CodexEmission.OnlyOffersEmit | cli/adapters/codex.py:256-320 | no other event emits an item |
| CodexParser.CliParseState.ResponseScope | cli/adapters/codex.py:456-466 | the current scope, opened by response id or by the counter |
| CodexParser.CliParseState.MarkResponseItemUnseen | cli/adapters/codex.py:399-416 | true iff the item is to be emitted; the seen set moves as specified |
| CodexParser.CliParseState.MarkStreamedMessageItemSeen | cli/adapters/codex.py:419-433 | a delta marks its item id and its output index as seen |
| CodexParser.CliParseState.Replay | cli/adapters/codex.py:303-320 | the final replay emits exactly the unseen items, in order |
| CodexParser.CliParseState.ParseEvent | cli/adapters/codex.py:256-320 | what an event emits is exactly what the specification adds to the output |
| IndexQueue.RunsConsistent | api/graphify/graphify_coordinator.py:201-235 | over every interleaving the path set is the set of queued paths, no path is queued twice or queued while indexed, work is first in first out, and every unresolved future is queued, in flight or abandoned by a drain |
| IndexQueue.ResolvedForGood | api/graphify/graphify_coordinator.py:303-312 | a resolved future never changes again |
| IndexQueue.CompleteSettles | api/graphify/graphify_coordinator.py:303-312 | after every run a completion gives the future of the job in flight exactly its outcome and touches no other |
| IndexQueue.OutcomeIsOwn | api/graphify/graphify_coordinator.py:303-312 | over every run a future neither pending nor stopped has the outcome of the completion that ended its own job |
| IndexQueue.StartQueues | api/graphify/graphify_coordinator.py:210-235 | a start queues a project neither queued nor indexed, last and with a pending future; any other start changes nothing |
| IndexQueue.SleeperTakesOldest | api/graphify/graphify_coordinator.py:292-301 | with registered projects a sleeping worker with work queued can wake and takes the oldest job |
| IndexQueue.DrainEmpties | api/graphify/graphify_coordinator.py:314-337 | after a drain queue and path set are empty and every queued future has the stop error |
| IndexQueue.DrainResolvesAllIff | api/graphify/graphify_coordinator.py:310-330 | after any run a drain leaves no future unresolved iff it does not cancel the worker mid-index and no earlier drain did |
| IndexQueue.DrainLeavesInFlight | api/graphify/graphify_coordinator.py:310-330 | a run that ends idle with the in-flight future unresolved |
| IndexQueue.StartKeepsWakeupIff | api/graphify/graphify_coordinator.py:224-235 | a start loses a wake-up iff it queues an unregistered project for a sleeping worker |
| IndexQueue.RegisteredRunsNeverStall | api/graphify/graphify_coordinator.py:224-298 | with registered projects a blocked worker has an empty queue or a set event |
| IndexQueue.UnregisteredStartStalls | api/graphify/graphify_coordinator.py:224-235 | a run that ends with work queued and the worker asleep |
| IndexCoordinator.GraphifyCoordinator.StartIndexProject | api/graphify/graphify_coordinator.py:201-235 | the fields move as the start step; running, queued and newly queued are told apart; an unregistered project raises after it was queued |
| IndexCoordinator.GraphifyCoordinator.StartIndexWorker | api/graphify/graphify_coordinator.py:284-288 | starts a worker iff none runs |
| IndexCoordinator.GraphifyCoordinator.ResumeWorker | api/graphify/graphify_coordinator.py:294-296 | a blocked worker resumes iff the event is set |
| IndexCoordinator.GraphifyCoordinator.WorkerTurn | api/graphify/graphify_coordinator.py:292-301 | takes the oldest job or waits |
| IndexCoordinator.GraphifyCoordinator.FinishIndexing | api/graphify/graphify_coordinator.py:303-312 | resolves the job's future if it is pending and clears the current job |
| IndexCoordinator.GraphifyCoordinator.DrainIndexQueue | api/graphify/graphify_coordinator.py:314-337 | the fields move as the drain step |
| IndexCoordinator.RunExtractWithTimeoutRetry | api/graphify/graphify_coordinator.py:125-161 | budgets are halved after each timeout and stay at least 4096; the first final outcome, or the last timeout, is returned |
| IndexCoordinator.CallsAreLogarithmic | api/graphify/graphify_coordinator.py:125-161 | n + 1 extract calls need a budget of at least 4096 * 2^n |
| SessionManager.StepSoundIff | cli/manager.py:65-160 | one call keeps the maps mutually inverse over live sessions, keys disjoint and no session leaked iff the call is careful |
| SessionManager.CarefulRunsSound | cli/manager.py:65-160 | so does every run of careful calls |
| SessionManager.BothIdsFindSession | cli/manager.py:74-86 | after registration both ids find the same session under the real id |
| SessionManager.CreateFinds | cli/manager.py:65-97 | a session asked for is found under the id returned; one that was there is reused; no other id is affected |
| SessionManager.RegisterMoves | cli/manager.py:99-114 | both ids then lead to the session that was pending, and every other id where it did |
| SessionManager.RemoveForgets | cli/manager.py:116-132 | the removed session was told to stop and is held no more, and no map mentions its id |
| SessionManager.RemoveKeepsOthers | cli/manager.py:116-132 | every other id leads where it did |
| SessionManager.CancelledRemovalStops | cli/manager.py:116-132 | a cancelled removal has still told the session to stop and forgotten it, and only it |
| SessionManager.StopAllEmpties | cli/manager.py:134-160 | from every state: all four maps are empty, no id is found, and every held session was told to stop |
| SessionManager.StopAllReachesEverySession | cli/manager.py:134-160 | after careful calls every session ever created has then been told to stop |
| SessionManager.AbortedStopAllKeeps | cli/manager.py:134-160 | an aborted stop_all leaves every session in place and has told some of them to stop |
| SessionManager.ReusedRealIdLeaks | cli/manager.py:99-114 | a real id registered twice leaks a running session |
| SessionManager.CLISessionManager.GetOrCreateSession | cli/manager.py:65-97 | the maps move as specified; a session is new iff neither map knows the id |
| SessionManager.CLISessionManager.RegisterRealSessionId | cli/manager.py:99-114 | a pending session moves under its real id and both id maps are extended |
| SessionManager.CLISessionManager.RemoveSession | cli/manager.py:116-132 | the session is stopped and forgotten, its ids too unless the task is cancelled inside stop |
| SessionManager.CLISessionManager.StopAllSessions | cli/manager.py:134-160 | every session has stop attempted and all maps are emptied |
| StoreProtocol.LoadIndexes | messaging/session.py:50-99 | whatever a file holds, the loaded log is duplicate-free and the id index is exactly its ids |
| StoreProtocol.LoadKeepsChats | messaging/session.py:64-92 | a chat is loaded iff the file holds a list for it, and with that list cleaned |
| StoreProtocol.CleanKeepsFirst | messaging/session.py:71-90 | cleaning keeps, for each id, exactly the first usable item |
| StoreProtocol.CleanKeepsOrder | messaging/session.py:71-90 | and the order of the file |
| StoreProtocol.MemoryIsLastSaved | messaging/session.py:243-305 | over every run the tree at a root is the one last saved or synced for it and not removed since, and each node maps to the root it was last mapped to; timers, flushes and writes change neither |
| StoreProtocol.SavedTreeIsFound | messaging/session.py:243-259 | after any history a saved tree is in memory, each of its nodes leads to it, and nothing else moves |
| StoreProtocol.SnapshotRoundTrip | messaging/session.py:101-107 | loading a snapshot of a consistent memory gives that memory back |
| StoreProtocol.ChangesKeepIndex | messaging/session.py:187-213 | the id set equals the ids in the log, without duplicates, after a load and any sequence of changes |
| StoreProtocol.RecordKeepsLast | messaging/session.py:187-213 | after any history a known id changes nothing; a new one is appended, and a positive cap keeps exactly the last cap entries |
| StoreProtocol.StepHealthyIff | messaging/session.py:127-173 | with any number of writes in flight, one step keeps the store indexed and durable iff a write it begins finds only writes that carry the same memory, and it removes no empty tree from a clean store |
| StoreProtocol.LossReachable | messaging/session.py:139-173 | from a state that is not durable, successful writes can end in an order that leaves nothing owed or in flight and a disk without the memory |
| StoreProtocol.EndsLoseNothing | messaging/session.py:139-173 | from a durable state no order of write ends, failures included, loses the memory |
| StoreProtocol.RunsDurable | messaging/session.py:127-173 | in every reachable state, with spurious timers, failing writes and overlapping writes that agree: the store is dirty, or all snapshots in flight equal memory, or nothing is in flight and the disk does |
| StoreProtocol.RestartSeesMemory | messaging/session.py:164-173 | a clean idle store, or a final flush after which all writes have ended in any order without a failure, means the next process loads exactly this memory |
| StoreProtocol.FlushSaves | messaging/session.py:164-173 | one successful flush with nothing else in flight puts the memory on disk |
| StoreProtocol.OwedIffArmedOrFailed | messaging/session.py:127-173 | over every run a save is owed iff the timer is armed or a write has failed since a save was last scheduled or begun |
| StoreProtocol.FailedWriteLeavesNoTimer | messaging/session.py:148-153 | a run that ends dirty with no timer armed |
| StoreProtocol.EmptyTreeRemovalIff | messaging/session.py:279-286 | removing an empty tree is durable iff a save is already owed |
| StoreProtocol.OverlappingWritesLose | messaging/session.py:139-173 | two overlapping writes can leave the older snapshot on disk with nothing dirty |
| SessionStoreObject.SessionStore.constructor | messaging/session.py:27-45 | construction loads the file and starts clean |
| SessionStoreObject.SessionStore.CleanItems | messaging/session.py:64-92 | loading keeps the first usable item for each id and indexes it |
| SessionStoreObject.SessionStore.RecordMessageId | messaging/session.py:175-213 | the fields move as the record step, a new id schedules a save, and a safe store stays safe |
| SessionStoreObject.SessionStore.SaveTree | messaging/session.py:243-259 | the tree is stored, its nodes are mapped to it, and a save is scheduled |
| SessionStoreObject.SessionStore.RemoveTree | messaging/session.py:279-286 | the tree and its node mappings go; a safe store stays safe iff the tree was not an unsaved empty one |
| SessionStoreObject.SessionStore.SaveFromTimer | messaging/session.py:139-153 | a firing snapshots the memory iff the store is dirty; with any writes in flight, a safe store stays safe iff those carry the same memory |
| SessionStoreObject.SessionStore.FlushSave | messaging/session.py:155-162 | stops the timer and begins a write of the present memory |
| SessionStoreObject.SessionStore.WriteData | messaging/session.py:109-153 | any of the writes in flight ends; a failure makes the store dirty, and a safe store stays safe |
| SessionStoreObject.SessionStore.FlushPendingSave | messaging/session.py:164-173 | a successful flush leaves the disk equal to memory, and safe iff the writes still in flight carry it too; a failed one leaves the store dirty |
| SessionStoreObject.SessionStore.ClearAll | messaging/session.py:226-239 | memory is blank, and so is the disk when the write succeeds; safe iff the writes still in flight are blank too |
| ModelIds.GatewayIdDecodes | api/gateway_model_ids.py:35-73 | decoding an advertised id gives back provider, model and the forced thinking flag |
| ModelIds.DecodedIs | api/gateway_model_ids.py:51-73 | exactly the names of the form prefix, provider, non-empty model decode, and to these parts |
| ModelIds.ConfiguredRoutes | api/model_router.py:67-84 | a name without a direct provider goes to the configured ref, split at its first slash, with the thinking of the name asked for; without a slash it fails |
| ModelIds.UnknownProviderIsConfigured | api/model_router.py:89-92 | an advertised id of an unsupported provider falls back to the configured mapping |
| ModelIds.AdvertisedIdRoutesBackIff | api/model_router.py:43-106 | each advertised id routes to exactly its provider and model, thinking forced off for the no-thinking form, iff it is marked or the model does not end in the marker |
| ModelIds.OwnMarkerIsLost | api/gateway_model_ids.py:51-73 | an unmarked id of a model that ends in the marker routes to another model |
| ModelIds.PlainRefRoutesIff | api/model_router.py:86-106 | a bare ref routes to itself unless its provider is named like a gateway prefix and its model has a further path |
| ModelCatalog.ShippedProvidersArePlain | config/provider_catalog.py:66-300 | no shipped provider is named like a gateway prefix |
| ModelCatalog.AdvertisedIds | api/model_catalog.py:53-141 | exactly the ids of the variants and of the compatibility models are advertised, each once |
| ModelCatalog.ListedIs | api/model_catalog.py:62-84 | configured refs come first, cached ones after them, none is lost |
| ModelCatalog.EveryRefIsAdvertised | api/model_catalog.py:53-141 | every configured or cached ref is advertised in its no-thinking form, and in its normal form unless it cannot think |
| ModelCatalog.BuildModelsListResponse | api/model_catalog.py:53-93 | the list is all variants in order, then the compatibility models, first occurrence of each id |
| ModelCatalog.AppendProviderModelVariants | api/model_catalog.py:113-141 | adds the normal form unless thinking is unsupported, then the no-thinking form, skipping known ids |
| ModelCatalog.AdvertisedCandidates | cli/codex_model_catalog.py:85-146 | the candidates drawn from any advertised list are one normal form per ref that may think and one no-thinking form per ref, for refs of supported providers, less one marker |
| ModelCatalog.CandidateOfId | cli/codex_model_catalog.py:111-146 | the candidate of an arbitrary id: both gateway forms of a supported ref and the bare ref, nothing else |
| ModelCatalog.BuildCodexModelCatalog | cli/codex_model_catalog.py:47-70 | the slugs are those of the shown candidates, each at its first occurrence |
| ModelCatalog.SlugsAre | cli/codex_model_catalog.py:47-70 | for any list, a slug is in the catalog iff it is the one form that stands for some listed ref of a supported provider |
| ModelCatalog.GoodRefIsCovered | cli/codex_model_catalog.py:47-146 | whatever else is listed, a good ref has its slug in the catalog, and the slug routes to its provider and model |
| ModelCatalog.OneSlugIff | cli/codex_model_catalog.py:47-146 | a good listed ref has exactly one slug iff no other listed ref differs from it by a context marker only |
| ModelCatalog.MarkedTwinAddsSlug | cli/codex_model_catalog.py:47-146 | a list of two refs in which one model has two slugs |
| ModelCatalog.CatalogCoversRefsOnce | cli/codex_model_catalog.py:47-146 | corollary for a list of good refs: every slug routes to a listed ref's provider and model, every listed ref is reached, and no two slugs route alike |

## Left out

- SlidingWindow.StrictSlidingWindowLimiter.AcquireAlone: covers an owner without competitors. With
  competitors a caller may be refused for ever; each of its passes is an Attempt.
- ProviderRetry.GlobalRateLimiter.WaitIfBlocked: observes the shared wait for `patience` passes,
  because it need not end; the retry loop may therefore report `StillWaiting`.
- No provider call starts while reactively blocked: not promised by the code, because the block is
  checked once and `set_blocked` overwrites it.
- ProviderRetry.RetryableUpstreamStatus: its contract bounds the statuses only; RetriedIff says when
  one is returned.
- The concurrency semaphore around provider calls, and the registry of scoped limiter instances.
- Shutdown and cancellation of the messaging worker, and the retries of `fire_and_forget`. A func that
  raises CancelledError itself counts as cancellation: it ends the worker and leaves its batch
  pending, and no outcome of the model stands for it.
- Finding the number of seconds in a flood error's text: an outcome says which number, or that
  it could not be converted.
- The transcript's `namesTask` flag stands for the search for "task" in a lower-cased id. Tool
  arguments, and the `closed` flag of a tool call that nothing reads, are not modelled; segment
  objects are represented by their positions in the list.
- The HTML of single segments: the renderer starts from the segments' texts.
- The messages of Codex error events; of type "error" and "turn.failed" they are the machine's
  OtherEvent. An output index of boolean type counts as absent.
- IndexCoordinator.GraphifyCoordinator.DrainIndexQueue: the drain is one step, so enqueue calls that
  arrive while it awaits the cancelled worker are not modelled.
- SessionManager.CLISessionManager.StopAllSessions: models only the call that runs to its end; the
  aborted call is the `StopAll` step of the machine.
- SessionStoreObject.SessionStore.FlushPendingSave: no other step comes between the flush and the end
  of its write; FlushSave and WriteData are the two halves for that.
- SessionStoreObject.SessionStore.ClearAll: the same.
- `register_node`, `remove_node_mappings` and `sync_from_tree_data` are steps of the store machine
  without a method of their own.
- ModelCatalog.BuildCodexModelCatalog: gives the slugs in order; the other fields of an entry are
  constants and display text.
- ModelIds.AdvertisedIdRoutesBackIff: lower-casing is modelled for the letters of the marker only.
- WebFetch.RunWebFetch: connection errors and timeouts, decoding and HTML extraction of the page, and
  the drained body of a redirect.
- `record_message_id` without a message id, which returns at once.
- Float rounding, logging, tracing, user-facing wording, shell-command heuristics, HTTP clients,
  subprocesses, settings and the admin interface.
