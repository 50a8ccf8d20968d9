# Verified model of the gateway's request path

A Dafny model of the hard core of an OpenAI-compatible gateway (Go) and of the usage scanner of its
legacy Python proxy, with proofs about whole runs and across components. `dafny verify
dfyconfig.toml` checks everything.

| part | modules | what is proved |
|---|---|---|
| event streams | `Text`, `Json`, `Sequences`, `Settling`, `SseFraming`, `SseEvents`, `ResponsesStream`, `ResponsesReading`, `ResponsesFields`, `ResponsesRoundTrip`, `StreamProtocol` | the byte framing, the printer of Responses streams, the parser on any messages, and the round trip between them for every answer |
| streaming relay | `Relay`, `RelayProperties`, `RelayOutcomes`, `RelayClientView` | a loop over messages, upstream end, heartbeat and context end in any interleaving: fidelity, verdict, error category and added messages, and agreement of the recorded verdict with what the client can read |
| limiters | `BurstLimiter`, `BurstRuns`, `InFlightLimiter` | the pruned in-place log refines the plain sliding log; slots balance over every interleaving |
| task group | `TaskGroup` | shutdown safety over all interleavings of the critical sections |
| context compaction | `TreeCompaction`, `TakenOrder`, `HistoryCut`, `ContextCompaction`, `CompactionContents`, `CompactionPairing`, `SummaryLanding`, `DurableFacts`, `RestoreState`, `RestoreReading`, `DirectiveWords`, `StoredState`, `ContextPolicy` | the tree rewrite and its order, when a cut is safe, where the summary lands, what survives any number of rounds under the cap on the stored state, and when admission respects the hard limit |
| call/output pairing | `ContentText`, `InputConversion`, `InputContents`, `OrphanFilter` | what is sent upstream of every request body: who says, calls and returns what, in which order; conversion keeps the pairing structure; the filter yields the greatest paired subsequence; whatever is sent upstream is paired, for every request body |
| usage accounting | `UsageFilter`, `UsageCost`, `TokenQuota` | three readings of one filter agree; how grouping changes cost; how far a quota can be overshot |
| legacy scanner | `LegacyUsage` | the same usage for every chunking |

Code that changes state step by step (stream writers, the relay loop, limiters, the task group's
critical sections, the clause builder, the fact list, the stream metrics) is modelled by classes and
methods proved against specification functions; the theorems are lemmas about those functions.

Where the code falls short of what its documentation or its surroundings suggest, the model follows
the code, gives a run that shows it, and states the exact condition:

- Two success exits of the relay write no `[DONE]` (`RelayProperties.SuccessWithoutDone`): a success
  ends with `[DONE]` at the client exactly when upstream sent it or closed cleanly
  (`RelayProperties.SuccessEndsWithDone`).
- The relay records an error while the client sees a regular end of stream
  (`RelayClientView.FailureSeenAsRegularEnd`); with one-line messages this happens exactly when the
  context ends after `[DONE]` without a completed or failed event
  (`RelayClientView.VerdictAgreesWithClient`).
- A message that came from a multi-line event loses its later lines when it is forwarded
  (`SseFraming.TwoLineEventIsCut`); the client reads the messages unchanged exactly when none holds a
  line feed (`RelayClientView.ForwardedUnchangedIff`), and what it makes of them otherwise is
  `RelayClientView.ClientVerdictIff`.
- A request whose time lies before that of a request served earlier can break the burst limit
  (`BurstRuns.OutOfOrderTimesBreakTheBound`). Exactly the calls that do not go back always get the
  plain log's answer and always keep the bound (`BurstRuns.AnsweredPlainlyIffInOrder`,
  `BurstRuns.BoundKeptIffInOrder`).
- `Stop` that leaves by timeout may leave a member inside `finish`, neither done nor cancelled
  (`TaskGroup.TimeoutMayLeaveTaskInFinish`); it leaves nothing behind exactly when no uncancelled
  member is past the map at its last step (`TaskGroup.StopCoversAllIff`).
- A history cut can part parallel calls from their outputs, which the orphan filter then drops
  (`HistoryCut.ParallelCallsAreCutApart`, `HistoryCut.EveryCutSafeIffSerial`,
  `CompactionPairing.CutResponsesDropNothingIff`).
- A stop is not carried over a quiet round unless the latest instruction itself has a stop word,
  although the prohibition is (`DirectiveWords.StoppedRoundThenExecutes`, `RestoreState.StopSurvivesIff`).
- A restricting latest instruction may leave no prohibition behind, because restrictions are recorded
  from pinned lines and six restricting markers are not pinned (`DirectiveWords.RestrictionForgotten`,
  two rounds on the gateway's own words). For every round it is recorded exactly when it has a stop
  word, or a pinned line forbids something itself, or every pinned line gives way to it
  (`RestoreState.RestrictionRecordedIff`).
- A request that repeats an earlier line keeps the earlier place, so another one may count as the
  latest (`DirectiveWords.RepeatedRequestOverlooked`); the last current line is the latest
  instruction exactly when no current line first occurs after it first did
  (`RestoreReading.LatestIsLastLineIff`).
- A restore state is stored by its first 12 000 characters. One that does not fit is lost as a whole
  (`StoredState.FullRoundIsForgotten`); a prohibition stays in force over quiet rounds exactly when
  every state fits (`StoredState.ProhibitionsSurviveIff`).
- A long leading system prompt takes the summary in the place of its text, and the message made for
  the summary keeps a bare placeholder (`SummaryLanding.LongPromptTakesSummary`). After a chat cut
  the summary lands in its own message exactly when no leading message holds the placeholder or a
  long text that compaction replaces (`SummaryLanding.ChatSummaryLandsIff`).
- The texts taken out of a request may come in several orders (`TakenOrder.TwoTextsTwoOrders`), and
  with them the line that counts as the latest. The order is fixed exactly when no object has two
  keys that yield texts (`TakenOrder.OneOrderIff`).
- The kept form of a durable fact may change when it is read back (`DurableFacts.KeptFormMayChange`),
  exactly when its cut at 300 characters ends in a space (`DurableFacts.NormalStableIff`).
- A failed owner lookup drops the owner restriction (`UsageFilter.FailedLookupLetsIn`,
  `UsageFilter.FailedLookupDiffersIff`).
- A quota check sees the rows logged at every instant but its own (`TokenQuota.SameInstantIsMissed`,
  both directions), and no request that is still open (`TokenQuota.TwoOpenRequestsOvershoot`). How far
  a window can be overshot is bounded by their number (`TokenQuota.OvershootBound`); the last request
  alone overshoots it exactly when a check never misses more than one request
  (`TokenQuota.LastAloneOvershootsIff`).
- A context policy that validation accepts may let requests through above the hard limit
  (`ContextPolicy.AcceptedButUnsafe`, `ContextPolicy.AcceptedSafeIff`,
  `ContextPolicy.SafeInEveryEnvironmentIff`).

## Model

| member | source | states |
|---|---|---|
| SseFraming.SseDataMessages | server/internal/server/codex_backend_adapter.go:882-907 | The scanner loop yields the non-blank data messages of the stream: data lines of one event joined by line feeds, trimmed, an unfinished event flushed at the end |
| SseFraming.RenderRoundTrip | server/internal/server/openai_gateway_handler.go:3022-3055 | Any run of frames the writers produce from one-line data, comments interleaved, scans back to exactly the trimmed non-blank payloads in order |
| SseFraming.MessagesClean | server/internal/server/openai_gateway_handler.go:1223-1248 | Every message the scanner delivers is trimmed and non-empty, for every byte stream |
| SseFraming.RewriteExactIffOneLine | server/internal/server/openai_gateway_handler.go:3032-3040 | Scanned messages written again one frame each scan back unchanged if and only if none contains a line feed |
| SseFraming.FrameShrinks | server/internal/server/openai_gateway_handler.go:3032-3040 | Re-writing a message never lengthens what a reader sees, and strictly loses text when the message holds a line feed |
| SseFraming.RenderRereads | server/internal/server/openai_gateway_handler.go:3032-3055 | Whatever the data frames hold, reading the written stream is reading its data frames one by one, comments aside |
| SseFraming.RereadExactIffOneLine | server/internal/server/openai_gateway_handler.go:3032-3040 | Scanned messages survive being written and read again if and only if none holds a line feed |
| SseFraming.TwoLineEventIsCut | server/internal/server/codex_backend_adapter.go:882-907 | An event of two data lines scans to one message with a line feed, and only its first line survives forwarding |
| SseEvents.EventsRead | server/internal/server/codex_backend_adapter.go:882-907 | For any events of any lines and a last event that was cut off: each gives its trimmed data lines joined by line feeds, the cut-off one too, and all other lines are passed over |
| SseEvents.LastLineFeedOptional | server/internal/server/openai_gateway_handler.go:1223-1248 | The same when the last line lacks its line feed |
| SseEvents.CutOffDataRead | server/internal/server/codex_backend_adapter.go:903-905 | One-line frames and then one unfinished data line, with or without line feed: its text is delivered after the payloads |
| ResponsesStream.WriteResponsesStreamBody | server/internal/server/openai_gateway_handler.go:2876-3020 | The printer appends exactly the framed event list of the answer and `[DONE]`, and returns the number of bytes |
| ResponsesStream.WriteEvents | server/internal/server/openai_gateway_handler.go:3022-3040 | Events are written one frame each, in order, and the byte count is that of the frames |
| ResponsesStream.ParseSSE | server/internal/server/codex_backend_adapter.go:816-880 | The parser loop computes the fold of the event meanings over the scanned messages, refusing failed and incomplete events |
| ResponsesReading.ParsedInFull | server/internal/server/codex_backend_adapter.go:816-880 | For any list of messages: refused if and only if one is a failed or incomplete event; otherwise text, reasoning, calls and counts are those given last, or what the pieces add up to |
| ResponsesReading.MessageContributes | server/internal/server/codex_backend_adapter.go:826-866 | What one message changes: deltas are appended, finished items, the completed response and finished summaries replace, ids are set once |
| ResponsesFields.CompletedOutputParses | server/internal/server/codex_backend_adapter.go:909-964 | A completed response without `output_text`: the answer is every trimmed non-blank text of its messages, line by line, nested lists included, and every named call; the counts prefer the top-level spellings |
| ResponsesFields.OutputTextWins | server/internal/server/codex_backend_adapter.go:911-914 | With a non-blank `output_text` the texts of the list do not matter |
| ResponsesRoundTrip.PrintedStreamParses | server/internal/server/openai_gateway_handler.go:2876-3069 | For every answer, parsing the printed bytes gives the trimmed content, the reasoning id and text, every named call in order as normalised by the printer, and the token counts |
| ResponsesRoundTrip.NormalAnswerRoundTrip | server/internal/server/codex_backend_adapter.go:816-964 | An answer in normal form (trimmed, named calls with ids and arguments, positive total) comes back unchanged |
| ResponsesRoundTrip.DoneItemsAreOutput | server/internal/server/openai_gateway_handler.go:3057-3069 | The finished items filed under their `output_index` are exactly the final `output` list, in order and without gaps |
| ResponsesRoundTrip.StreamMessages | server/internal/server/openai_gateway_handler.go:3022-3040 | The printed stream consists of the encoded events and one final `[DONE]`, each a clean one-line message |
| ResponsesRoundTrip.StreamFold | server/internal/server/codex_backend_adapter.go:816-880 | Reading the printer's events in order reconstructs the answer, including the preference of final over accumulated text and calls |
| ResponsesRoundTrip.UsageRead | server/internal/server/openai_gateway_handler.go:2533-2554 | Token counts survive the usage payload, except that a missing total becomes input plus output |
| StreamProtocol.PrintedEventsFollowProtocol | server/internal/server/openai_gateway_handler.go:2876-3020 | For every answer: created, then reasoning and message each announced, filled and finished under one id and one place, the calls at the places behind them, completed last |
| StreamProtocol.ItemsFillUp | server/internal/server/openai_gateway_handler.go:2897-2999 | Each part is opened empty, filled by one delta and closed as the content of the finished item; a reasoning item is announced empty, a message already in full, and only its status changes |
| StreamProtocol.CreatedIsCompleted | server/internal/server/openai_gateway_handler.go:2880-3019 | The completed response is the created one but for status, text, output and usage |
| StreamProtocol.CreatedIsNamed | server/internal/server/openai_gateway_handler.go:2880-2894 | The created response carries the answer's id, time and model, is in progress and holds nothing yet |
| StreamProtocol.IdsAre | server/internal/server/openai_gateway_handler.go:3098-3183 | Ids are the answer's own where it has them and numbered ones otherwise; a call may lend its id |
| StreamProtocol.CallReported | server/internal/server/openai_gateway_handler.go:3157-3174 | A call is reported finished, under its ids and with its name and arguments as they are |
| Relay.StreamResponses | server/internal/server/openai_gateway_handler.go:797-1014 | For every schedule and every connection behaviour the loop hands over the frames and leaves by the exit of the specification run, and counts every byte that arrived |
| Relay.Client.Write | server/internal/server/openai_gateway_handler.go:3032-3055 | A write hands over one frame, succeeds as the connection decides, and reports the bytes that arrived |
| RelayProperties.RelayFidelity | server/internal/server/openai_gateway_handler.go:818-1013 | The data handed over is a prefix of upstream's non-blank messages in order plus at most one gateway suffix, `[DONE]` is added only if none was forwarded, nothing heard is lost and every error exit has told the client `[DONE]` unless the client went away |
| RelayProperties.RelayVerdict | server/internal/server/openai_gateway_handler.go:883-1011 | Without client write failures the exit is decided by the messages heard and by how the run ended, in both directions |
| RelayProperties.FailureIsFinal | server/internal/server/openai_gateway_handler.go:984-1011 | Once a failed or incomplete event was forwarded, no continuation succeeds |
| RelayProperties.SuccessEndsWithDone | server/internal/server/openai_gateway_handler.go:903-945 | A success shows the client `[DONE]` if and only if upstream sent it or closed the stream cleanly |
| RelayProperties.SuccessWithoutDone | server/internal/server/openai_gateway_handler.go:903-908 | A completed event followed by a read error or by the end of the context succeeds without any `[DONE]` |
| RelayProperties.EventsCounted | server/internal/server/openai_gateway_handler.go:946-960 | For every exit, client failures included, the counter equals the number of heard messages other than `[DONE]` that were written without error |
| RelayProperties.SoundRun | server/internal/server/openai_gateway_handler.go:950-954 | Over a sound connection no run ends with the client gone |
| RelayProperties.NotesFlags | server/internal/server/openai_gateway_handler.go:955-994 | The three flags and the counter say exactly which events were among the forwarded messages |
| RelayOutcomes.RelayOutcome | server/internal/server/openai_gateway_handler.go:883-1011 | For every run whose client stays: exit, error, error category, the messages the gateway adds and the text it counts follow from the messages heard and the ending alone |
| RelayOutcomes.NotesText | server/internal/server/openai_gateway_handler.go:964-994 | The text counted is what a message settled on last and the deltas after it; the category is that of the last failed event |
| RelayOutcomes.FailureShown | server/internal/server/openai_gateway_handler.go:1250-1272 | The failure written to the client is a failed response whose error holds the message and the category as `code` |
| RelayOutcomes.ClientGoneIff | server/internal/server/openai_gateway_handler.go:821-954 | The client counts as gone exactly when the last write made failed; otherwise every write succeeded, the two of a failure aside, which are not looked at |
| RelayOutcomes.BrokenWriteArrives | server/internal/server/openai_gateway_handler.go:3032-3055 | Of a broken write the client has the beginning, as far as it got through |
| RelayClientView.VerdictAgreesWithClient | server/internal/server/openai_gateway_handler.go:883-1011 | With one-line messages and a sound connection, a recorded success shows the client exactly the upstream answer, and a recorded failure shows it a refusal except in one stated case |
| RelayClientView.ClientReads | server/internal/server/openai_gateway_handler.go:947-954 | Over a sound connection the received bytes scan back as the re-read messages, whatever they hold, followed by the gateway's suffix |
| RelayClientView.ClientSeesOutcome | server/internal/server/openai_gateway_handler.go:797-1014 | Over a sound connection the client reads the re-read messages and then exactly what the outcome adds |
| RelayClientView.ForwardedUnchangedIff | server/internal/server/openai_gateway_handler.go:947-954 | The client reads exactly the data handed to the connection if and only if no heard message holds a line feed |
| RelayClientView.ClientVerdictIff | server/internal/server/openai_gateway_handler.go:883-1011 | For all messages: after a recorded success the client has the answer of the re-read messages; after a recorded failure it has a refusal if and only if a re-read message failed or the gateway added a failure |
| RelayClientView.FailureSeenAsRegularEnd | server/internal/server/openai_gateway_handler.go:1001-1011 | Only `[DONE]` and then the end of the context: recorded as a failure, read as a regular end |
| RelayClientView.SuccessMetrics | server/internal/server/openai_gateway_handler.go:887-895 | For every successful run, the usage recorded is what a parser finds in the messages, or the estimate when it finds none |
| RelayClientView.MetricsAgree | server/internal/server/openai_gateway_handler.go:973-983 | The relay and the parser extract the same usage from the same messages |
| RelayClientView.RefusedIffFailed | server/internal/server/codex_backend_adapter.go:816-880 | The parser refuses exactly the streams with a failed or incomplete event |
| RelayClientView.RelayPrintedStream | server/internal/server/openai_gateway_handler.go:797-1014 | Relaying a stream that another gateway printed, under any heartbeats, succeeds, hands on the printed answer and records its token counts |
| BurstLimiter.Limiter.Allow | server/internal/server/openai_gateway_handler.go:664-690 | The call decides like the specification on the key's log, prunes in the shared backing array, and leaves every other key's log unchanged |
| BurstLimiter.Compact | server/internal/server/openai_gateway_handler.go:677-682 | The in-place filter leaves exactly the live times, in order, at the front of the array |
| BurstLimiter.Append | server/internal/server/openai_gateway_handler.go:687 | Appending in place or in a grown copy adds one time behind the others |
| BurstLimiter.Record | server/internal/server/openai_gateway_handler.go:676-689 | Pruning, refusing at the limit and recording together give the specified log and answer |
| BurstRuns.LimiterRefinesPlainLog | server/internal/server/openai_gateway_handler.go:664-690 | On every run with nondecreasing times per key, each key is answered like a plain sliding log that forgets nothing |
| BurstRuns.PrunedRefinesPlain | server/internal/server/openai_gateway_handler.go:676-689 | Pruning is invisible: the pruned log answers like the full history |
| BurstRuns.BurstBound | server/internal/server/openai_gateway_handler.go:664-690 | On every run of the limiter whose times for a key never go back, every interval of the window's length, wherever it ends, holds at most `limit` calls of the key that were answered yes |
| BurstRuns.AcceptedIsGranted | server/internal/server/openai_gateway_handler.go:664-690 | The history the plain log builds is exactly the calls it answered yes |
| BurstRuns.KeyBound | server/internal/server/openai_gateway_handler.go:676-689 | The bound for one key, on the answers the pruned log gives |
| BurstRuns.AnsweredPlainlyIffInOrder | server/internal/server/openai_gateway_handler.go:675-690 | A call after a call at `last` gets the plain log's answer, for every limit and history up to `last`, if and only if it does not go back |
| BurstRuns.BoundKeptIffInOrder | server/internal/server/openai_gateway_handler.go:675-690 | Every ordered run up to `last` and one more call at `now` keeps the bound in every interval if and only if `last <= now` |
| BurstRuns.LateCallOverflows | server/internal/server/openai_gateway_handler.go:596-613 | Every call that goes back past an entry already pruned can be accepted as the third in its window at a limit of two, where the plain log refuses it |
| BurstRuns.WindowNeverExceeded | server/internal/server/openai_gateway_handler.go:683-687 | A history built by such admissions never exceeds the limit in any window |
| BurstRuns.KeysIndependent | server/internal/server/openai_gateway_handler.go:655-690 | Interleaved keys are answered as if each were alone |
| BurstRuns.OutOfOrderTimesBreakTheBound | server/internal/server/openai_gateway_handler.go:596-613 | At a limit of two in ten, the times 0, 0, 100, 5 are all accepted, the plain log refuses the last, and three lie in one window |
| InFlightLimiter.Limiter.TryAcquire | server/internal/server/openai_gateway_handler.go:574-594 | Acquiring updates the counts and answers as specified, also for blank keys and limits that are not positive |
| InFlightLimiter.Limiter.Release | server/internal/server/openai_gateway_handler.go:585-593 | Releasing removes the key at one and decrements it above |
| InFlightLimiter.StepConsistent | server/internal/server/openai_gateway_handler.go:574-594 | Every step keeps counts equal to holders; a slot is granted if and only if fewer than `limit` are held |
| InFlightLimiter.SlotsBalance | server/internal/server/openai_gateway_handler.go:565-594 | On every interleaving of acquires and once-only releases the count is the number of holders, a present key is between one and the limit, and the map is empty exactly when nothing is held |
| TaskGroup.Group.Accept | server/pkg/taskgroup/taskgroup.go:72-98 | Counting and registering in one critical section is the accept step of the protocol: rejected once stopped, else one more count and one fresh uncancelled registration |
| TaskGroup.Group.Unregister | server/pkg/taskgroup/taskgroup.go:133-155 | The locked part of `finish` is the protocol step that removes one registration and nothing else |
| TaskGroup.Group.Done | server/pkg/taskgroup/taskgroup.go:133-155 | In every reachable state the count is positive when `Done` runs, and the step lowers it by one |
| TaskGroup.Group.BeginStop | server/pkg/taskgroup/taskgroup.go:177-242 | Setting the flag under the lock is the protocol step that begins a Stop |
| TaskGroup.CancelsAtOnceIff | server/pkg/taskgroup/taskgroup.go:177-242 | A Stop may cancel at once if and only if it does not wait or has no time to |
| TaskGroup.Group.CancelRunning | server/pkg/taskgroup/taskgroup.go:157-166 | Whatever order the map yields, the loop is the protocol step that cancels every registered context and returns their number |
| TaskGroup.StepKeepsInv | server/pkg/taskgroup/taskgroup.go:72-242 | Every critical section of every goroutine keeps the group invariant |
| TaskGroup.RunKeepsInv | server/pkg/taskgroup/taskgroup.go:72-242 | The invariant holds after every legal interleaving |
| TaskGroup.WaitCountExact | server/pkg/taskgroup/taskgroup.go:94-155 | The WaitGroup equals the accepted members that have not passed `Done`, and `Done` is only reachable while it is positive |
| TaskGroup.NoAddAfterStop | server/pkg/taskgroup/taskgroup.go:75-91 | After the stop flag is set nothing is accepted and the count only falls |
| TaskGroup.WaitedStopMeansAllFinished | server/pkg/taskgroup/taskgroup.go:177-242 | A Stop that left by the waited branch implies that everything accepted has finished |
| TaskGroup.ReturnedStopCoversAll | server/pkg/taskgroup/taskgroup.go:177-242 | After any Stop has returned each accepted member is finished, past the map in `finish`, or cancelled, for ever after |
| TaskGroup.TimeoutMayLeaveTaskInFinish | server/pkg/taskgroup/taskgroup.go:177-242 | A run in which a timed-out Stop leaves a member inside `finish` |
| TaskGroup.StopCoversAllIff | server/pkg/taskgroup/taskgroup.go:133-242 | The last step of a Stop leaves every member finished or cancelled if and only if no uncancelled member is past the map inside `finish` |
| TaskGroup.TasksCanDrain | server/pkg/taskgroup/taskgroup.go:133-155 | From every reachable state the members can finish by steps of their own, so shutdown cannot deadlock |
| TaskGroup.StopCanReturn | server/pkg/taskgroup/taskgroup.go:177-242 | From every reachable state a waiting Stop can return by the waited branch once the members have finished, and at once by timeout |
| TreeCompaction.CompactLargeStrings | server/internal/server/gateway_context_compaction.go:455-501 | Whatever the map iteration order, the walk gives the same payload, collects exactly the replaced texts, in one of the orders the map allows, and reports whether there were any |
| TreeCompaction.YieldsTaken | server/internal/server/gateway_context_compaction.go:455-501 | Every order of the walk collects the same texts the same number of times |
| TreeCompaction.CompactionPlaceByPlace | server/internal/server/gateway_context_compaction.go:455-520 | Every place of the tree keeps its shape; a string changes if and only if it is long, unmarked, text-carrying and not protected |
| TreeCompaction.CompactIdempotent | server/internal/server/gateway_context_compaction.go:455-501 | Compacting twice is compacting once |
| TreeCompaction.ChangedIffTaken | server/internal/server/gateway_context_compaction.go:455-501 | The payload is unchanged exactly when no text was taken out |
| TreeCompaction.SkippedUnchanged | server/internal/server/gateway_context_compaction.go:512-520 | Tools, tool choice and metadata subtrees are left alone |
| TreeCompaction.LongIs | server/internal/server/gateway_context_compaction.go:491-501 | Texts of 4000 characters or more are replaced unless they come from a compaction |
| TreeCompaction.KeysAre | server/internal/server/gateway_context_compaction.go:503-520 | Six keys hold text, white space around them aside; tools, tool choice and metadata close everything below them |
| TreeCompaction.OriginReads | server/internal/server/gateway_context_compaction.go:465-482 | A collected text is named by its path, list places in brackets |
| TakenOrder.YieldsUnique | server/internal/server/gateway_context_compaction.go:455-489 | If no object on the way has two keys that yield texts, every walk collects the same texts in the same order |
| TakenOrder.OneOrderIff | server/internal/server/gateway_context_compaction.go:455-489 | Texts being told apart by their origin, the order is fixed if and only if no object has two keys that yield texts |
| TakenOrder.TwoTextsTwoOrders | server/internal/server/gateway_context_compaction.go:455-489 | One message with two long texts, collected in both orders |
| HistoryCut.EveryCutSafeIffSerial | server/internal/server/gateway_context_compaction.go:335-344 | No number of kept items ever parts an answer from its call if and only if each answer behind the leading run follows its call through answers only |
| HistoryCut.SerialCutSafe | server/internal/server/gateway_context_compaction.go:405-414 | A cut of a serial history leaves every answer its call |
| HistoryCut.CutKeepsEnough | server/internal/server/gateway_context_compaction.go:335-344 | A cut that drops anything keeps at least the requested items and starts at an item that may come first |
| HistoryCut.ParallelCallsAreCutApart | server/internal/server/gateway_context_compaction.go:600-605 | A paired history of two parallel calls that is not paired after the cut |
| ContextCompaction.CompactChat | server/internal/server/gateway_context_compaction.go:312-358 | With a cut: leading run, one summary, kept suffix, and the texts dropped; without: the largest message shortened if it is long enough |
| ContextCompaction.CompactResponses | server/internal/server/gateway_context_compaction.go:382-434 | With a cut: one summary, the kept items with the long ones shortened, and exactly the texts dropped, in order; without: the largest item shortened if it is long enough |
| ContextCompaction.CompactResponsesInput | server/internal/server/gateway_context_compaction.go:382-434 | All input kinds: one text, a list, or nothing that can be compacted |
| ContextCompaction.ShortenLargest | server/internal/server/gateway_context_compaction.go:360-380 | Exactly the first longest item is replaced, if and only if some item is long |
| ContextCompaction.ShortenKept | server/internal/server/gateway_context_compaction.go:436-453 | Every kept item that is long and unmarked is replaced, all others are unchanged, and their segments are appended in order |
| ContextCompaction.TextSegments | server/internal/server/gateway_context_compaction.go:345-351 | One segment for each dropped item that has text, in order |
| CompactionContents.ItemTextIs | server/internal/server/gateway_context_compaction.go:647-663 | The text of an item is its content, arguments and output, line by line, the missing ones left out |
| CompactionContents.SegmentsAre | server/internal/server/gateway_context_compaction.go:334-340 | Every dropped item that has text gives one segment, in order |
| CompactionContents.SegmentsNameTheSpeaker | server/internal/server/gateway_context_compaction.go:607-631 | Each segment names its role: the one given, the tool for an output, or the one that the first part of a message names |
| CompactionContents.RecentSegmentsAre | server/internal/server/gateway_context_compaction.go:436-453 | Of the kept items exactly those with 4000 characters or more and no placeholder are shortened and collected |
| CompactionContents.ShortenChanges | server/internal/server/gateway_context_compaction.go:579-590 | Shortening touches long items only and one field of them: the first text part takes the stand-in, later text parts are emptied, or arguments, output or content are replaced |
| CompactionContents.SummariesAre | server/internal/server/gateway_context_compaction.go:545-551 | The message that stands for the cut is the user's and holds the placeholder and the hand-over note |
| CompactionContents.LeadIs | server/internal/server/gateway_context_compaction.go:327-333 | The leading messages are those of system and developer before the first of anyone else |
| CompactionContents.CutsAre | server/internal/server/gateway_context_compaction.go:334-341 | The cut falls at the last place before the kept items that is no tool result, or at the end of the leading messages |
| CompactionPairing.ResponsesCompactionLosesNoOutput | server/internal/server/gateway_context_compaction.go:234-274 | For a serial history, cut, shortening, tree compaction and summary insertion together leave the orphan filter nothing to drop |
| CompactionPairing.ChatCompactionLosesNoOutput | server/internal/server/gateway_context_compaction.go:234-274 | The same for chat messages with a leading system prompt |
| CompactionPairing.CutResponsesDropNothingIff | server/internal/server/gateway_context_compaction.go:234-274 | After a Responses cut and all rewrites the filter drops nothing if and only if the kept items are paired among themselves |
| CompactionPairing.CutChatDropsNothingIff | server/internal/server/gateway_context_compaction.go:234-274 | The same for a chat cut |
| CompactionPairing.UncutResponsesDropNothingIff | server/internal/server/gateway_context_compaction.go:522-541 | Without a cut the filter drops nothing if and only if the whole history was paired |
| CompactionPairing.UncutChatDropsNothingIff | server/internal/server/gateway_context_compaction.go:360-380 | The same for chat messages |
| CompactionPairing.CompactKeepsLinks | server/internal/server/gateway_context_compaction.go:503-520 | Tree compaction keeps every field that links a call to its output |
| CompactionPairing.InsertKeepsLinks | server/internal/server/gateway_context_compaction.go:553-577 | Filling in the summary keeps the number of items and their links |
| CompactionPairing.FinishKeepsSlots | server/internal/server/gateway_context_compaction.go:255-258 | The two last rewrites together keep the pairing structure of the conversation |
| CompactionPairing.ReplaceFirstIs | server/internal/server/gateway_context_compaction.go:553-577 | The first placeholder gives way to the summary and everything around it stays |
| SummaryLanding.HoldsAfterIff | server/internal/server/gateway_context_compaction.go:647-663 | Whether an item holds the placeholder after compaction is read off the item before it: a field with the placeholder, or a long text open to compaction, in content, parts, arguments or output |
| SummaryLanding.SummaryLandsThere | server/internal/server/gateway_context_compaction.go:553-577 | For every list the summary goes to the first item that will hold the placeholder, and every other item stays as compacted |
| SummaryLanding.ChatSummaryLandsIff | server/internal/server/gateway_context_compaction.go:328-357 | After a chat cut the summary lands in its own message if and only if no leading system or developer message will hold the placeholder |
| SummaryLanding.ResponseSummaryLands | server/internal/server/gateway_context_compaction.go:382-431 | After a Responses cut it always lands in its own message |
| SummaryLanding.LongPromptTakesSummary | server/internal/server/gateway_context_compaction.go:255-258 | A long leading prompt is replaced by the summary, and the message made for the summary keeps its bare placeholder |
| InputConversion.ConvertResponses | server/internal/server/codex_backend_adapter.go:467-520 | The conversion loop concatenates what each item becomes, or fails at the first item that fails |
| InputConversion.ConvertChat | server/internal/server/codex_backend_adapter.go:420-465 | The same for chat messages |
| InputConversion.ResponseFaithful | server/internal/server/codex_backend_adapter.go:643-746 | A converted item shows exactly the calls and the answer its source item has, after trimming and defaulting of ids |
| InputConversion.ChatFaithful | server/internal/server/codex_backend_adapter.go:420-465 | The same for a chat message with any number of tool calls |
| InputConversion.ConvertPaired | server/internal/server/codex_backend_adapter.go:408-520 | The converted input is paired if and only if the conversation was |
| InputConversion.NothingDroppedIffPaired | server/internal/server/codex_backend_adapter.go:322-326 | The filter drops nothing exactly when every answer in the conversation follows its call |
| InputConversion.UpstreamAlwaysPaired | server/internal/server/codex_backend_adapter.go:306-362 | For every request body, list, text or single content value, each output sent upstream is preceded by its call |
| InputConversion.MakeUpstreamInput | server/internal/server/codex_backend_adapter.go:322-329 | Conversion of any body followed by the filter gives the specified input, or rejects the request |
| InputConversion.RequestDropsNothingIff | server/internal/server/codex_backend_adapter.go:408-520 | For every body that is not rejected, no output is dropped if and only if each follows its call in the body |
| InputContents.UpstreamCarries | server/internal/server/codex_backend_adapter.go:395-464 | For every body of either endpoint: rejected if and only if some content cannot be rendered or nothing is left; otherwise upstream gets in order what each message says, its calls with names and arguments, and the outputs whose call came before |
| InputContents.ChatConverted | server/internal/server/codex_backend_adapter.go:409-464 | One chat message: what the renderer gives for user and assistant, then the assistant's named calls, or the tool's output text under its call id |
| InputContents.ResponseConverted | server/internal/server/codex_backend_adapter.go:466-520 | One Responses item: the call or output it is, or a message of the user unless it names the assistant |
| InputContents.FilterShows | server/internal/server/codex_backend_adapter.go:724-774 | The filter removes exactly the outputs without an earlier call of their id |
| InputContents.CallPieceIdValid | server/internal/server/codex_backend_adapter.go:661-720 | Every call sent upstream has a valid item id, the client's own if that is one |
| InputContents.MadeUpIdValid | server/internal/server/codex_backend_adapter.go:686-705 | Made-up ids are valid, and a call id of allowed characters without marks at its ends is kept; one without a letter or digit becomes "call" |
| InputContents.ItemIdsAre | server/internal/server/codex_backend_adapter.go:668-684 | Item ids begin with "fc" and are made of ASCII letters, digits, underscores and hyphens |
| OrphanFilter.DropOrphanOutputs | server/internal/server/codex_backend_adapter.go:748-787 | The loop computes the specified filter |
| OrphanFilter.FilterPaired | server/internal/server/codex_backend_adapter.go:748-787 | After the filter every output is preceded by a call with its id |
| OrphanFilter.FilterIsGreatest | server/internal/server/codex_backend_adapter.go:748-787 | Every paired choice of items lies inside the filter's choice |
| OrphanFilter.FilterPicksKept | server/internal/server/codex_backend_adapter.go:748-787 | The result is the subsequence of the kept indices |
| OrphanFilter.FilterFixedIffPaired | server/internal/server/codex_backend_adapter.go:748-787 | Nothing is dropped if and only if the input was paired; filtering is idempotent |
| OrphanFilter.FilterKeepsOthers | server/internal/server/codex_backend_adapter.go:748-787 | Everything that is no output survives in order |
| DurableFacts.FactList.Append | server/internal/server/gateway_context_compaction.go:981-996 | Appending a fact keeps the list duplicate-free, within the limit and mirrored by the seen set |
| DurableFacts.FactList.AppendEach | server/internal/server/gateway_context_compaction.go:964-1014 | The same for a list of facts, one by one |
| DurableFacts.AppendAllKeeps | server/internal/server/gateway_context_compaction.go:964-996 | The list stays duplicate-free, non-blank and within its limit after any appends |
| DurableFacts.EvictedOnlyByNewer | server/internal/server/gateway_context_compaction.go:981-996 | A fact leaves the list only after at least `limit` distinct newer facts |
| DurableFacts.EvictedAcrossRounds | server/internal/server/gateway_context_compaction.go:830-847 | Over any number of rounds a fact leaves the list only after at least `limit` distinct facts that were newer on it or found since |
| DurableFacts.RoundsAreAppends | server/internal/server/gateway_context_compaction.go:964-1014 | Rounds that read their states back amount to one run of appends and keep the list stable |
| DurableFacts.BuiltListsAreStable | server/internal/server/gateway_context_compaction.go:964-1014 | Every list that rounds build up from nothing is read back unchanged |
| DurableFacts.RoundLosesNothing | server/internal/server/gateway_context_compaction.go:830-847 | A round that reads its state back keeps every old and registers every new fact while the distinct facts fit the limit |
| DurableFacts.NoFactLost | server/internal/server/gateway_context_compaction.go:964-1014 | If all facts ever registered fit the limit, none is lost over any number of rounds |
| DurableFacts.NormalStableIff | server/internal/server/gateway_context_compaction.go:981-996 | The kept form is stable if and only if the cut does not end in a space, and always after one more round |
| DurableFacts.KeptFormMayChange | server/internal/server/gateway_context_compaction.go:981-996 | A fact of 301 characters whose kept form loses its last character one round later |
| RestoreState.CollectLines | server/internal/server/gateway_context_compaction.go:934-962 | The collecting loop yields the matching lines, deduplicated and capped |
| RestoreState.MatchingIn | server/internal/server/gateway_context_compaction.go:934-962 | Exactly the matching lines are collected, each once |
| RestoreReading.MatchingInOrder | server/internal/server/gateway_context_compaction.go:934-962 | The lines stand in the order in which they first occur |
| RestoreReading.LatestHereIs | server/internal/server/gateway_context_compaction.go:866-886 | The latest instruction of a round is its last new current line, or else its last new restriction; the goal its last new goal line |
| RestoreReading.LatestIsLastLineIff | server/internal/server/gateway_context_compaction.go:934-962 | The last current line is the latest instruction if and only if no current line first occurs after it first did |
| RestoreReading.PinnedAre | server/internal/server/gateway_context_compaction.go:849-864 | The directives are the twelve pinned lines that first occur last, each cut at 700 characters |
| RestoreReading.BuildFields | server/internal/server/gateway_context_compaction.go:752-828 | Every field of the state: what goal, latest instruction, facts and prohibitions fall back on, which directives remain, and exactly when each phase, next step, confirmation and doubt holds |
| RestoreReading.LimitRunesIs | server/internal/server/gateway_context_compaction.go:1527-1533 | Cutting keeps a beginning of the trimmed text, all of it if it is short enough |
| RestoreState.BuildCoherent | server/internal/server/gateway_context_compaction.go:752-828 | Every round, from any previous state and input, ends in a state whose phase, prohibitions, confirmations and next action agree |
| RestoreState.QuietRoundKeepsProhibitions | server/internal/server/gateway_context_compaction.go:752-828 | A round without user directives keeps latest instruction and prohibitions of a state that was read back |
| RestoreState.ProhibitionsSurvive | server/internal/server/gateway_context_compaction.go:752-847 | Prohibitions survive any number of such rounds |
| RestoreState.StopSurvivesIff | server/internal/server/gateway_context_compaction.go:1175-1191 | A stopped phase survives a quiet round if and only if the latest instruction itself has a stop word |
| RestoreState.StopCanBecomeExecute | server/internal/server/gateway_context_compaction.go:1268-1280 | After such a round the next action is to execute although prohibitions remain |
| RestoreState.RestrictionOverrulesPermissions | server/internal/server/gateway_context_compaction.go:1074-1101 | A restricting latest instruction leaves no older permission in force |
| RestoreState.RestrictionRecordedIff | server/internal/server/gateway_context_compaction.go:752-828 | For every round whose latest instruction is a restricting line of the round: a prohibition is recorded if and only if that line has a stop word, or a pinned line that does not allow restricts or stops, or all pinned lines allow and give way to it |
| RestoreState.ResolveRestricting | server/internal/server/gateway_context_compaction.go:1074-1101 | A restricting latest instruction keeps exactly the pinned lines that do not allow, and stands in for them when all of them do |
| DirectiveWords.ListsNested | server/internal/server/gateway_context_compaction.go:849-881 | With the gateway's lists every goal line is a current line, every current line is pinned, and every trimmed line with a stop word is pinned and restricts |
| DirectiveWords.UnpinnedRestrictionLost | server/internal/server/gateway_context_compaction.go:1168-1173 | With the gateway's lists, whatever the lines, a round that restricts and has no pinned line records nothing |
| DirectiveWords.StoppedRoundThenExecutes | server/internal/server/gateway_context_compaction.go:752-828 | A round with "stop" and then a request stops; after a round without input the next action is to execute, with the prohibition still recorded |
| DirectiveWords.RestrictionForgotten | server/internal/server/gateway_context_compaction.go:1168-1173 | Two rounds that end on "cannot", one of them with a pinned line, whose prohibitions stay empty |
| DirectiveWords.RepeatedRequestOverlooked | server/internal/server/gateway_context_compaction.go:1033-1050 | A request, another one and the first again: the other one counts as the latest |
| StoredState.ReadBackIff | server/internal/server/gateway_context_compaction.go:704-709 | A stored state is read back if and only if its text fits into 12 000 characters; otherwise none of it is |
| StoredState.FortyFullFactsAreLost | server/internal/server/gateway_context_compaction.go:704-709 | A state with forty facts of full length is never read back |
| StoredState.FullRoundIsForgotten | server/internal/server/gateway_context_compaction.go:964-996 | A round that registers forty such facts, of the 64 a list may hold, hands none of them on |
| StoredState.FittingSessionKeepsFacts | server/internal/server/gateway_context_compaction.go:752-847 | While every state fits, the facts of a session are those of rounds that read everything back |
| StoredState.OverflowForgetsAll | server/internal/server/gateway_context_compaction.go:830-847 | After a state that does not fit a session goes on as if nothing had come before |
| StoredState.ProhibitionsSurviveIff | server/internal/server/gateway_context_compaction.go:752-847 | Over any number of rounds without user directives a prohibition stays in force if and only if every state fits |
| ContextPolicy.EffectivePolicy | server/internal/biz/official_model_prices.go:147-197 | Step by step overwriting equals field-wise layering of recommendation, environment and model row |
| ContextPolicy.EffectiveFields | server/internal/biz/official_model_prices.go:116-197 | Every field in use is the first positive one of model row, environment, catalogue and default, the catalogue's window before the environment's, and at least two items are kept |
| ContextPolicy.RecommendedIs | server/internal/biz/official_model_prices.go:116-145 | The limits recommended for a window: fixed from 400 000 tokens on, below that 65 and 95 percent rounded down |
| ContextPolicy.EffectiveIsSet | server/internal/server/gateway_context_compaction.go:154-174 | Every policy in use has all limits positive and keeps at least two items |
| ContextPolicy.PrepareContext | server/internal/server/gateway_context_compaction.go:51-132 | Passthrough returns the body unchanged; otherwise what goes on is the body or its compaction, admitted below the hard limit whenever the thresholds are in order |
| ContextPolicy.SafeIffThresholdsOrdered | server/internal/server/gateway_context_compaction.go:176-182 | No size passes uncompacted at or above the hard limit if and only if compaction starts no later than the hard limit, in bytes and tokens |
| ContextPolicy.CataloguePaired | server/internal/biz/official_model_prices.go:116-145 | Catalogue models have both limits set with compaction strictly below the hard limit |
| ContextPolicy.PairedLayersAreSafe | server/internal/biz/official_model_prices.go:147-197 | If environment and model row set their limits in ordered pairs, compaction starts strictly below the hard limit and nothing large passes |
| ContextPolicy.SafeInEveryEnvironmentIff | server/internal/biz/gateway.go:1607-1615 | A model is safe whatever the environment sets if and only if its own row guards both pairs |
| ContextPolicy.AcceptedPairsAreSafe | server/internal/biz/gateway.go:1669-1705 | A validated row that sets limits in pairs is safe when the environment sets nothing |
| ContextPolicy.AcceptedIff | server/internal/biz/gateway.go:1669-1705 | Validation accepts exactly the rows whose fields are unset or in range, with compaction before the hard limit and tokens within the window |
| ContextPolicy.AcceptedSafeIff | server/internal/biz/gateway.go:1669-1705 | A validated row of a catalogue model is safe if and only if a lone limit respects the catalogue's other limit |
| ContextPolicy.AcceptedButUnsafe | server/internal/biz/gateway.go:1669-1705 | A validated row that lets requests through above the hard limit |
| UsageFilter.WhereBuilder.Add | server/internal/data/gateway_repo.go:1412-1415 | Adds one argument and the condition that names it, keeping conditions and arguments in step |
| UsageFilter.WhereBuilder.AddIn | server/internal/data/gateway_repo.go:1417-1427 | Adds one argument and placeholder per value, and nothing for an empty list |
| UsageFilter.WhereBuilder.AddOwner | server/internal/data/gateway_repo.go:1434-1436 | Adds the owner subquery with its argument |
| UsageFilter.BuildWhere | server/internal/data/gateway_repo.go:1405-1483 | The clause built carries the filter's conditions with placeholders $1 to $n once each and in order for n arguments |
| UsageFilter.WhereClauseMeansFilter | server/internal/data/gateway_repo.go:1405-1483 | Evaluated with SQL's three truth values, the clause selects a row, null key included, if and only if the filter means it |
| UsageFilter.ApplyFilter | server/internal/data/gateway_repo.go:1339-1399 | The query builder collects the filter's predicates, the owner replaced by the ids looked up |
| UsageFilter.QueryMeansFilter | server/internal/data/gateway_repo.go:1339-1399 | The query builder selects what the filter means when the lookup succeeds, and ignores the owner when it fails |
| UsageFilter.FailedLookupDiffersIff | server/internal/data/gateway_repo.go:1345-1356 | After a failed lookup clause and query differ on a row if and only if only the owner excludes it |
| UsageFilter.FailedLookupLetsIn | server/internal/data/gateway_repo.go:1345-1356 | A foreign row kept out by the clause and let in by the query whose owner lookup failed |
| UsageCost.EstimateUsageCost | server/internal/data/gateway_repo.go:1485-1538 | A figure is given if and only if prices exist and every group with tokens has one; it is the sum of the groups' costs |
| UsageCost.AttachRowCosts | server/internal/data/gateway_repo.go:391-406 | Each row of a priced model gets its own cost, the others none, and the costs given add up to the rows' total |
| UsageCost.AttachKeyCosts | server/internal/data/gateway_repo.go:1540-1603 | Each summary gets the total of its key's groups if prices exist, the key has a group and every group of it with tokens has a price; otherwise it is left as it was |
| UsageCost.CostIs | server/internal/data/gateway_repo.go:1688-1697 | Prices are per million tokens; negative counts are none and cached tokens are capped by input tokens |
| UsageCost.SameGroupIff | server/internal/data/gateway_repo.go:1496-1508 | Rows share a group if they share the model and, where keys are told apart, the key, a missing key being key 0 |
| UsageCost.GroupingNeverRaisesCost | server/internal/data/gateway_repo.go:1688-1697 | Pricing groups never exceeds pricing their rows, and is equal if and only if every group with a cheaper cached price is one-sided |
| UsageCost.CoarserIsCheaper | server/internal/data/gateway_repo.go:1485-1603 | Per model at most per key and model at most per row, all equal when cached tokens stay within input tokens |
| UsageCost.TotalAgainstKeys | server/internal/data/gateway_repo.go:1485-1603 | The total has a figure if and only if every key has one, and is at most the sum over keys |
| UsageCost.KeysAddUp | server/internal/data/gateway_repo.go:1540-1603 | Adding the keys' costs in any order gives the cost of all groups |
| UsageCost.PricedIffRowsPriced | server/internal/data/gateway_repo.go:1516-1523 | A group lacks a price if and only if one of its rows with tokens does |
| UsageCost.CappedTogether | server/internal/data/gateway_repo.go:1692-1693 | Capping cached tokens row by row never prices more of them as cached than capping the sums, with the exact case of equality |
| TokenQuota.AdmittedIff | server/internal/biz/gateway.go:1013-1057 | A request is admitted if and only if the key is known and every limited measure of both windows was read and is below its limit |
| TokenQuota.VerdictIs | server/internal/biz/gateway.go:1013-1057 | Which verdict a check gives: unknown key first, then the day, then the week, each unreadable or exceeded |
| TokenQuota.StoreDownAdmits | server/internal/biz/gateway.go:1036-1049 | While the log cannot be read, exactly the requests of keys without any limit are admitted |
| TokenQuota.WeeklyTotalInForce | server/internal/biz/gateway.go:1093-1104 | The weekly total in force is the key's own, or its legacy quota if it has neither a weekly nor a daily total |
| TokenQuota.BillableIs | server/internal/biz/gateway.go:1112-1123 | Billable input is the input that was not cached, never below zero |
| TokenQuota.WithinIffNotExceeded | server/internal/biz/gateway.go:1066-1091 | The branching check is the statement about all measures; disabled limits never refuse |
| TokenQuota.WeekStartIsMonday | server/internal/biz/gateway.go:1106-1110 | The week start is the one Monday among the day and the six days before it |
| TokenQuota.WindowsTile | server/internal/biz/gateway.go:1051-1056 | Days and weeks tile time: an instant lies in exactly the window that starts at its window start |
| TokenQuota.RunSplits | server/internal/biz/gateway.go:1013-1057 | On every interleaving of checks and logs, events at one instant included, each window's rows split into those a check found within the limits and at most as many as a check may know nothing of |
| TokenQuota.OvershootBound | server/internal/biz/gateway.go:1013-1091 | In every day and week every limited measure ends at most limit - 1 plus the largest share of each request that may be open or logged at the very instant of a check |
| TokenQuota.SequentialOvershoot | server/internal/biz/gateway.go:1013-1091 | With each request logged at an instant before the next check the overshoot is the last request's tokens alone, for total, input, output and billable input |
| TokenQuota.CheckReads | server/internal/biz/gateway.go:1036-1049 | What a check reads of its window is exactly the part logged before its own instant |
| TokenQuota.TwoOpenRequestsOvershoot | server/internal/biz/gateway.go:1013-1057 | Under every policy two requests checked before either is logged are both admitted, and the window then holds both in full, in every measure |
| TokenQuota.LastAloneOvershootsIff | server/internal/biz/gateway.go:1013-1091 | For every policy, window and measure: what lies above limit - 1 is at most the last request's share in all runs, if and only if a check never misses more than one request |
| TokenQuota.MeasureSubadditive | server/internal/biz/gateway.go:1112-1123 | Billable input of a sum is at most the sum of billable inputs |
| TokenQuota.SameInstantIsMissed | server/internal/biz/gateway.go:1038-1041 | A row that fills the quota stops the day's later checks, but not a check at its own instant |
| LegacyUsage.UpdateUsage | legacy-python-mvp/src/api_service/proxy.py:144-161 | A block replaces the usage, keeps it, or raises, as its data lines say |
| LegacyUsage.BlockSays | legacy-python-mvp/src/api_service/proxy.py:144-161 | A block of lines says what its data lines, stripped and joined, hold as JSON; nothing without data lines, for the end marker and for other text |
| LegacyUsage.ReportRead | legacy-python-mvp/src/api_service/proxy.py:112-141 | Input and output are read under either name, at either place, and a missing total is their sum |
| LegacyUsage.FirstLineSplits | legacy-python-mvp/src/api_service/proxy.py:144-161 | A line ends at the first line break, a carriage return taking a line feed along |
| LegacyUsage.StripIs | legacy-python-mvp/src/api_service/proxy.py:144-161 | Stripping cuts white space off both ends and nothing else |
| LegacyUsage.StreamMetrics.DrainBlocks | legacy-python-mvp/src/api_service/proxy.py:290-292 | Cutting blocks off the buffer folds them in order and leaves the rest after the last blank line |
| LegacyUsage.StreamMetrics.BodyIterator | legacy-python-mvp/src/api_service/proxy.py:283-300 | For every chunking the usage is that of the whole text; every chunk is passed on and counted |
| LegacyUsage.AppendSplit | legacy-python-mvp/src/api_service/proxy.py:289-292 | Text that arrives later only continues the rest of what came before |
| LegacyUsage.SplitUndoesWhole | legacy-python-mvp/src/api_service/proxy.py:290-291 | Splitting undoes joining if and only if each block is one the leftmost cut leaves whole |
| LegacyUsage.WholeUndoesSplit | legacy-python-mvp/src/api_service/proxy.py:290-291 | No text is lost by splitting |
| LegacyUsage.LastUsageWins | legacy-python-mvp/src/api_service/proxy.py:144-161 | The last block that reports usage decides |
| LegacyUsage.BodyUsageIs | legacy-python-mvp/src/api_service/proxy.py:283-300 | The usage of a body is that of its last reporting block, the rest being a block if the body ended without an error |

## Left out

- JSON text: encoding and decoding are a parameter, a reversible map that yields one line between braces for an object; numbers are integers, so floating-point numbers and 64-bit wrap-around of sums are not modelled.
- Strings are sequences of Unicode characters; byte counts use the UTF-8 width of each character, and characters split across network chunks are not modelled.
- InputContents.UpstreamCarries: instructions taken from system and developer messages, tools and reasoning options of the upstream request are not modelled.
- Scanner buffer limits, HTTP status codes and headers, retries, token refresh, authentication and logging.
- Clocks, tickers and timeouts: events of a schedule or parameters, in any order the code allows; goroutine scheduling is an interleaving of critical sections.
- Relay.StreamResponses: leaves out the request conversion before the stream opens and the model name in the recorded metrics, because neither touches the loop.
- The payload maps that compaction edits in place are values here, so aliasing between a payload and a retained part of it is not captured.
- Wording of prompts and anchors, lower-casing, the markers of compaction text and pattern extraction are parameters (`Wording`, `Style`, `Rules`); the keyword lists of the restore state are a parameter (`Lexicon`) whose instance `DirectiveWords.Words` holds the gateway's own; content and image rendering is the parameter `Renderer`.
- RestoreState.BuildCoherent: models the fields that steer the next step; the lists of completed, remaining, historical and obsolete text are not in the state.
- StoredState.ReadBackIff: the JSON text of a state is a parameter that reads back, holds the facts and more, and has no shorter beginning that is read.
- Some collecting loops over lines and segments are recursive functions, where the list is only built and read.
- SQL text layout, the column prefix and query execution: a clause is its conditions and arguments, a table a sequence of rows, an aggregate query any list of groups with the right sums.
- Session summaries and per-day buckets, which repeat the key summaries with another label.
- UsageCost.EstimateUsageCost: an empty price map also stands for a failed price lookup; query errors, which give no figure, are not modelled.
- TokenQuota.OvershootBound: a check reads the log at one instant, and rows logged for refused requests, which carry no tokens, are not in the log; how many requests may be open is a parameter, because the in-flight limit is applied after the check.
- Time zones and daylight saving: days have a fixed length and the window arithmetic is on day numbers.
- LegacyUsage.StreamMetrics.BodyIterator: a client that closes the stream early, and the request log written at the end, are not modelled.
- LegacyUsage.UpdateUsage: Python's `json.loads` and `int` are parameters, and only exceptions of the token sum are modelled.
- Acquiring both limiters for one large request, the normalisers of finite settings, and the administrative and front-end code: easy members only.
