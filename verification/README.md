# Verified model of the agent runtime

This project models the parts of the agent runtime whose behaviour is hardest to see from
reading one function: the incremental parsers, the transcript transformations, the agent loop,
the JSON Schema engine, and the concurrent protocols. Every file is one Dafny module;
`dafny verify dfyconfig.toml` checks them all.

- **Streaming JSON.** `StreamingCore` is the character-at-a-time parser as a state machine,
  `JsonText` the concrete syntax of RFC 8259 with what each text denotes, `StreamingRead` the proof
  that the parser reads every text, in any pieces, to what it denotes. `StreamingPrefix` says exactly
  what a snapshot of a prefix shows, `PrefixAgreement` how that compares with the whole value,
  `StreamingWeight` what it weighs. `Numbers` reads numbers. `StreamingParser` is the parser
  object with its weight counter, dirty flag, cache and copy credit; `RepairJson` and
  `ArgumentsStream` are built on it.
- **Event streams.** `Utf8` decodes bytes that arrive in pieces, `Sse` lines and events.
- **Transcripts.** `TranscriptTools` replays tool declarations and folds system messages,
  `DeclareTools` keeps the transcript in step with the executable tools, `HistoryRewrite` adapts a
  history to another model, and `OrphanRepair` answers calls that have no result.
- **Agent loop.** `AgentEvents` says what shape a run gives its events, `AgentLoop` what the outside
  may do, `AgentRun` is the loop with its tool batches, `Agent` the state that follows the events,
  `AgentAgreement` both together, and `ToolUpdateGate` the gate for progress updates.
- **Schemas.** `SchemaCheck` is the fast check, `SchemaExplain` the slow explainer, `SchemaAgree` their
  agreement, `SchemaGuards` compiling and checking with cyclic references, `SchemaCoerce` the three
  coercion passes, and `SchemaKept` which valid values they keep.
- **Protocols.** `ModelsRefresh`, `OAuthRefresh` and `CacheWarmer` are state machines over the locked
  sections of all threads, with invariants over every run, beside the locked objects themselves.
- **Shared.** `Options`, `Seqs`, `Words`, `Chars` and `Depths` hold what several modules use.

Conventions. Hooks, providers, the network and the scheduler are arbitrary: the hooks of the agent
loop are functions of the time at which they are asked, the choice among running tasks is any choice,
and the protocols quantify over all sequences of steps. Several statements about the code turned out
false in general. There the model keeps the code, a lemma names an input, and another one says exactly
when the statement holds: repairing twice (`FailedMessageStrandsResult`, `RepairTwiceExactly`), keeping
a call and its result paired (`ReusedIdLosesItsResult`, `PairingKeptExactly`), declaring tools with
repeated names (`DuplicateNamesDoNotSynchronise`, `DeclarationSynchronisesExactly`), explaining every
rejection (`DependenciesAreNotExplained`, `FlagIsNotExplained`, `SilentExactly`), and keeping valid
values (`UntypedItemsWrap`, `KeptExactly`, `IntegerKeptExactly`). A comment in the coercer says that
non-tuple arrays wrap a single value; the code also does so where no type asks for an array, and the
model follows the code.

## Model

| member | source | states |
|---|---|---|
| `StreamingRead.RoundTrip` | crates/pi-ai/src/streaming_json.rs:275-285 | Appending the serialization of a string, an array or an object, cut into pieces anywhere, ends with exactly that value as the root. |
| `StreamingRead.ReadsEveryText` | crates/pi-ai/src/streaming_json.rs:424-803 | The same for every text whose outermost value is a string, array or object: any blanks, any escapes with surrogates in pairs, any number the parser can read, repeated keys (the last one wins). |
| `StreamingRead.ReadsGrammar` | crates/pi-ai/src/streaming_json.rs:424-803 | So for every text of the grammar of sections 4 to 7 of RFC 8259 whose numbers a double can hold and whose escaped surrogates come in pairs. |
| `StreamingRead.ReadsEveryScalar` | crates/pi-ai/src/streaming_json.rs:651-664 | A number, true, false or null at the outermost level ends at the first delimiter with its value. |
| `StreamingRead.ReadDoc` | crates/pi-ai/src/streaming_json.rs:424-803 | In any slot inside open containers, reading a text places the value the text denotes and leaves the rest of the state alone. |
| `StreamingRead.FeedPiecesIsFeed` | crates/pi-ai/src/streaming_json.rs:275-285 | How a text is cut into pieces does not matter. |
| `StreamingCore.StepIsGood` | crates/pi-ai/src/streaming_json.rs:424-527 | Whatever character comes, the stack, the pending key, the open string and the scalar keep fitting each other. |
| `StreamingCore.FeedConcat` | crates/pi-ai/src/streaming_json.rs:275-285 | Two appends are one append of both texts. |
| `StreamingPrefix.SnapshotIsShown` | crates/pi-ai/src/streaming_json.rs:360-422 | After any prefix of any text, repeated keys included, the snapshot is exactly what that prefix shows: closed values as they are, the open string up to its last complete character, the open number or literal by the pending reader, nothing of what comes later. |
| `StreamingPrefix.ShownAtEnd` | crates/pi-ai/src/streaming_json.rs:360-422 | In the end that is the whole value. |
| `PrefixAgreement.PrefixApproximation` | crates/pi-ai/src/streaming_json.rs:360-422 | Without repeated keys the snapshot agrees with the final value: from its first character on a string, array, object or literal is shown; every closed element and member, the last one included, is equal; only the one open leaf differs: a string is a beginning of itself, a number the number typed so far; what has not begun is not there. |
| `PrefixAgreement.SerializationPrefix` | crates/pi-ai/src/streaming_json.rs:360-422 | The same for every prefix of the serialization of a value. |
| `StreamingPrefix.PendingShows` | crates/pi-ai/src/streaming_json.rs:854-879 | Any beginning of a literal is shown as the literal it will become, any beginning of a number as the reading of what is typed without a begun exponent, up to 64 bytes. |
| `StreamingWeight.SnapshotWeight` | crates/pi-ai/src/streaming_json.rs:288-312 | What a snapshot holds never weighs more than what is charged for copying it. |
| `Json.InsertWeight` | crates/pi-ai/src/streaming_json.rs:197-215 | Storing a member adds its weight and the weight of a new key, and takes off what it displaces. |
| `Json.InsertIsMapUpdate` | crates/pi-ai/src/streaming_json.rs:579-611 | Storing a member is an update of a finite map. |
| `Numbers.GrammarNumberReads` | crates/pi-ai/src/streaming_json.rs:881-899 | Every number of section 6 of RFC 8259 reads as a number exactly if a double can hold it: an integer of 64 bits as itself, any other one by its literal. |
| `StreamingParser.StreamingJsonParser.Append` | crates/pi-ai/src/streaming_json.rs:275-285 | The state advances by exactly the piece, the weight counter stays exact, and the piece buys 256 plus 8 per byte of copy credit. |
| `StreamingParser.StreamingJsonParser.FeedChar` | crates/pi-ai/src/streaming_json.rs:424-527 | One character: the fields take the step of the specification, the counter equals the summed weight of the open containers, and a snapshot that is not marked dirty is still current. |
| `StreamingParser.StreamingJsonParser.InsertMember` | crates/pi-ai/src/streaming_json.rs:613-649 | Only an entry that is really displaced loses its weight, so the subtraction never saturates. |
| `StreamingParser.StreamingJsonParser.CommitClosedContainerValue` | crates/pi-ai/src/streaming_json.rs:579-611 | A closed container moves into its parent with its weight. |
| `StreamingParser.StreamingJsonParser.CloseContainer` | crates/pi-ai/src/streaming_json.rs:558-577 | Closing takes the container off the stack and places it, whatever key is dangling. |
| `StreamingParser.StreamingJsonParser.PlaceClosedLeaf` | crates/pi-ai/src/streaming_json.rs:613-649 | A closed string or scalar enters its slot; the counter stays exact. |
| `StreamingParser.StreamingJsonParser.FinishScalar` | crates/pi-ai/src/streaming_json.rs:651-664 | A pending scalar that reads as a value is placed, another one is dropped. |
| `StreamingParser.StreamingJsonParser.FeedStringChar` | crates/pi-ai/src/streaming_json.rs:666-803 | One character inside a string, with partial escapes and surrogates. |
| `StreamingParser.StreamingJsonParser.PrepareValueSlot` | crates/pi-ai/src/streaming_json.rs:529-556 | Where the next value goes, without changing weight or snapshot. |
| `StreamingParser.StreamingJsonParser.SnapshotCloneCost` | crates/pi-ai/src/streaming_json.rs:288-312 | The cost is computed from the counter without walking the containers. |
| `StreamingParser.StreamingJsonParser.BuildSnapshot` | crates/pi-ai/src/streaming_json.rs:360-422 | The loop over the stack computes the snapshot of the specification. |
| `StreamingParser.StreamingJsonParser.SnapshotRef` | crates/pi-ai/src/streaming_json.rs:332-354 | The cached snapshot is refreshed only if something changed and the credit pays for it; all copying so far is at most 256 per append and 8 per byte. |
| `ArgumentsStream.ToolCallArgumentsStream.AppendWithChange` | crates/pi-ai/src/streaming_json.rs:920-924 | The parser stands where reading the whole text would take it. |
| `ArgumentsStream.ToolCallArgumentsStream.PartialRef` | crates/pi-ai/src/streaming_json.rs:926-932 | The arguments shown are the current ones unless the copy was too expensive. |
| `ArgumentsStream.ToolCallArgumentsStream.Replace` | crates/pi-ai/src/streaming_json.rs:946-970 | An extension is read on, anything else starts over, and either way the parser stands where the new text leads. |
| `RepairJson.RepairText` | crates/pi-ai/src/streaming_json.rs:45-109 | The index loop computes the repair function. |
| `RepairJson.RepairPreservesReading` | crates/pi-ai/src/streaming_json.rs:45-109 | For every text the parser reads the repaired text to the state it reaches on the original, a pending escape taken literally. |
| `RepairJson.RepairPreservesRoot` | crates/pi-ai/src/streaming_json.rs:45-109 | In particular it finds the same root, or none in both. |
| `RepairJson.RepairTwice` | crates/pi-ai/src/streaming_json.rs:45-109 | Repairing again changes nothing. |
| `RepairJson.RepairedExactly` | crates/pi-ai/src/streaming_json.rs:45-109 | In a repaired text no string holds a bare control character and every backslash starts a legal escape, and a text is changed if and only if it was not like that. |
| `Utf8.DecodeConcat` | crates/pi-ai/src/api.rs:735-769 | Decoding may be resumed between any two bytes (section 3 of RFC 3629): the undecided tail carries over. |
| `Utf8.ValidationStep` | crates/pi-ai/src/api.rs:742-766 | One round of the loop over validation results decodes what the scalar-by-scalar reading decodes. |
| `Utf8.DecodeEncode` | crates/pi-ai/src/api.rs:735-769 | Encoded text decodes to itself with nothing left over. |
| `Sse.ChunkIndependence` | crates/pi-ai/src/api.rs:735-789 | Feeding two chunks gives the events and the state of feeding both at once. |
| `Sse.AnyChunking` | crates/pi-ai/src/api.rs:735-789 | So does any way of cutting a byte string into chunks. |
| `Sse.StreamIsOnePass` | crates/pi-ai/src/api.rs:735-841 | Any chunking plus the end of the stream gives the events of one pass over the whole text, line by line. |
| `Sse.SseParser.FeedBytes` | crates/pi-ai/src/api.rs:735-769 | The byte buffer, the text buffer and the pending event change as the state machine says. |
| `Sse.SseParser.MoveDecodable` | crates/pi-ai/src/api.rs:739-767 | The loop moves everything decided into the text buffer and keeps the undecided tail. |
| `Sse.SseParser.DrainLines` | crates/pi-ai/src/api.rs:776-789 | Complete lines are taken from the buffer and processed in order. |
| `Sse.SseParser.Finish` | crates/pi-ai/src/api.rs:791-806 | A truncated sequence, a last line and a pending event are not lost. |
| `Sse.SseParser.ProcessLine` | crates/pi-ai/src/api.rs:808-829 | Comments, fields and empty lines. |
| `Sse.SseParser.FlushEvent` | crates/pi-ai/src/api.rs:831-841 | An event with data or a name is dispatched and cleared. |
| `ToolUpdateGate.UpdateGate.TryEnqueue` | crates/pi-agent/src/agent_loop.rs:1613-1622 | Accepts exactly while the gate is open. |
| `ToolUpdateGate.UpdateGate.PopForSend` | crates/pi-agent/src/agent_loop.rs:1625-1633 | Takes the first update and counts it as in flight in one section. |
| `ToolUpdateGate.UpdateGate.CloseAndTake` | crates/pi-agent/src/agent_loop.rs:1651-1656 | Closes and takes the queue in one section. |
| `ToolUpdateGate.StepKeepsInv` | crates/pi-agent/src/agent_loop.rs:1600-1676 | Every step of producers, worker and closer keeps: delivered, in hand, taken and queued updates are together the accepted ones, in order, and no waiter misses a wake-up it needs. |
| `ToolUpdateGate.DeliveredIsAccepted` | crates/pi-agent/src/agent_loop.rs:1651-1676 | When closing returns, the delivered updates are exactly the accepted ones in order, once each. |
| `ToolUpdateGate.DeliveredIsPrefix` | crates/pi-agent/src/agent_loop.rs:1651-1676 | At every earlier point they are a prefix. |
| `ToolUpdateGate.NothingAcceptedAfterClose` | crates/pi-agent/src/agent_loop.rs:1613-1622 | Once closed, the accepted updates do not change any more. |
| `ToolUpdateGate.ClosingProgress` | crates/pi-agent/src/agent_loop.rs:1661-1670 | While closing, every step of worker, closer or notifier brings the end nearer. |
| `ToolUpdateGate.ClosingNeverStuck` | crates/pi-agent/src/agent_loop.rs:1661-1670 | Until closing has returned some step is possible: no waiter sleeps for ever. |
| `ToolUpdateGate.WorkerNeverStuck` | crates/pi-agent/src/agent_loop.rs:1721-1742 | The worker never sleeps while the queue holds something and no wake-up is coming. |
| `ToolUpdateGate.ClosingTerminates` | crates/pi-agent/src/agent_loop.rs:1651-1676 | Every schedule of a closing gate is bounded. |
| `ToolUpdateGate.DroppedLosesNothing` | crates/pi-agent/src/agent_loop.rs:1682-1692 | At every moment of a run after a gate was dropped while the tool ran, every accepted update is delivered, in the hand of the worker or queued, in order; once the worker has exited exactly the accepted ones are delivered. |
| `TranscriptTools.GetCurrentTools` | crates/pi-ai/src/transform_messages.rs:168-194 | The order list and the map together hold exactly the replayed tool list. |
| `TranscriptTools.RemoveAllFacts` | crates/pi-ai/src/transform_messages.rs:168-194 | After removals a name stands for nothing or for what it stood for. |
| `TranscriptTools.PutAllFacts` | crates/pi-ai/src/transform_messages.rs:168-194 | After additions a name stands for its last declaration; names stay distinct. |
| `TranscriptTools.ReplayDistinct` | crates/pi-ai/src/transform_messages.rs:168-194 | A replayed list never has a name twice. |
| `TranscriptTools.CollapseKeeps` | crates/pi-ai/src/transform_messages.rs:247-259 | Collapsing keeps the current tools with their order, the current system message and all other messages. |
| `TranscriptTools.CollapseIdempotent` | crates/pi-ai/src/transform_messages.rs:247-259 | Collapsing twice is collapsing once. |
| `TranscriptTools.FindLastNonAdditive` | crates/pi-ai/src/transform_messages.rs:331-347 | Finds the last system message that removes a tool or declares a name again. |
| `TranscriptTools.FoldingIsExact` | crates/pi-ai/src/transform_messages.rs:349-386 | Behind the last such message the folded tools and the later additions are together the full replay, order included. |
| `TranscriptTools.ResolveTranscriptTools` | crates/pi-ai/src/transform_messages.rs:349-386 | For each kind of support: what is sent up front, how many system messages that covers, no fewer and no more. |
| `DeclareTools.ChangesSynchroniseExactly` | crates/pi-ai/src/transform_messages.rs:279-307 | Applying the computed changes to a tool list makes it declare the other one if and only if none of the other one is hidden behind a later tool of its name that is declared already. |
| `DeclareTools.ChangesSynchronise` | crates/pi-ai/src/transform_messages.rs:279-307 | So it does whenever the names are distinct. |
| `DeclareTools.SameNeedsNothing` | crates/pi-ai/src/transform_messages.rs:279-307 | Lists that declare the same tools need no change. |
| `DeclareTools.DeclarationSynchronisesExactly` | crates/pi-agent/src/agent_loop.rs:589-678 | For any history, pending messages and executable tools, the history and the declared pending messages replay to exactly those tools if and only if none is hidden behind a later one of its name that is declared already. |
| `DeclareTools.DeclarationSynchronises` | crates/pi-agent/src/agent_loop.rs:589-678 | So they do for distinctly named tools, for any earlier changes and any pending system messages. |
| `DeclareTools.SecondDeclarationIsEmpty` | crates/pi-agent/src/agent_loop.rs:589-678 | A second call with nothing pending adds nothing. |
| `DeclareTools.DeclarationKeepsTheRest` | crates/pi-agent/src/agent_loop.rs:589-696 | Apart from the tool fields of one system message, or one blank message in front, the pending messages stay as they are. |
| `DeclareTools.DuplicateNamesDoNotSynchronise` | crates/pi-ai/src/transform_messages.rs:279-307 | Histories on which two executable tools of one name leave the transcript with the wrong one. |
| `HistoryRewrite.ReplaceImagesWithPlaceholder` | crates/pi-ai/src/transform_messages.rs:392-414 | The loop computes the replacement function. |
| `HistoryRewrite.ImagesBecomePlaceholders` | crates/pi-ai/src/transform_messages.rs:392-414 | No image is left, every other text is, in order, and a placeholder stands where an image was. |
| `HistoryRewrite.RewriteAssistant` | crates/pi-ai/src/transform_messages.rs:507-560 | The loop over the blocks computes the rewritten content and the renamed ids. |
| `HistoryRewrite.RewriteHistory` | crates/pi-ai/src/transform_messages.rs:493-564 | The first pass computes the rewritten history. |
| `HistoryRewrite.RewriteKeepsKinds` | crates/pi-ai/src/transform_messages.rs:493-564 | Messages keep their number, order, role and everything the pass does not rewrite. |
| `HistoryRewrite.PairingKeptExactly` | crates/pi-ai/src/transform_messages.rs:497-552 | A call and its result carry one id afterwards exactly when the call itself is renamed or no earlier assistant message had a call of that id renamed. |
| `HistoryRewrite.ReusedIdLosesItsResult` | crates/pi-ai/src/transform_messages.rs:497-552 | A history in which a call of the target model loses its result. |
| `OrphanRepair.RepairOrphans` | crates/pi-ai/src/transform_messages.rs:566-659 | The second pass computes the repair. |
| `OrphanRepair.TransformMessages` | crates/pi-ai/src/transform_messages.rs:485-660 | Both passes one after the other. |
| `OrphanRepair.EveryCallIsAnswered` | crates/pi-ai/src/transform_messages.rs:566-659 | In the result no failed assistant message is left and the results right behind each assistant message answer all its calls. |
| `OrphanRepair.OnlyFailedMessagesAreLost` | crates/pi-ai/src/transform_messages.rs:566-659 | Without the synthesized results the output is the input without failed assistant messages: system messages in their order, the others in theirs. |
| `OrphanRepair.SettledIsKept` | crates/pi-ai/src/transform_messages.rs:566-659 | A history in which every call is answered at once and no result stands behind a later system message is left as it is. |
| `OrphanRepair.RepairTwiceExactly` | crates/pi-ai/src/transform_messages.rs:566-659 | Repairing twice is repairing once exactly when no result comes behind both a system message and a failed assistant message within one stretch. |
| `OrphanRepair.RepairTwice` | crates/pi-ai/src/transform_messages.rs:566-659 | In particular on histories without failed assistant messages. |
| `OrphanRepair.FailedMessageStrandsResult` | crates/pi-ai/src/transform_messages.rs:614-626 | A history on which repairing twice is not repairing once. |
| `AgentEvents.ResultsMatchCalls` | crates/pi-agent/src/agent_loop.rs:1275-1393 | However a batch interleaves, its results answer a prefix of the calls by id and in order, and every started call runs, waits for its result or has it. |
| `AgentEvents.StartEndResult` | crates/pi-agent/src/agent_loop.rs:1275-1393 | In every prefix of a batch an id has at least as many starts as ends and as many ends as results. |
| `AgentEvents.WholeBatchTally` | crates/pi-agent/src/agent_loop.rs:1275-1393 | In a whole batch each id has as many starts as ends as results. |
| `AgentEvents.GoodRunEnded` | crates/pi-agent/src/agent_loop.rs:310-571 | In a completed run the finished messages are what the end of the run reports. |
| `AgentEvents.CutRunEnded` | crates/pi-agent/src/agent_loop.rs:310-571 | So they are in a failed run. |
| `AgentEvents.GoodRunIsBalanced` | crates/pi-agent/src/agent_loop.rs:310-571 | A completed run has one start and one end, the end last, and all turns and messages are closed. |
| `AgentEvents.CutRunIsBalanced` | crates/pi-agent/src/agent_loop.rs:310-571 | A failed run has one start and one end, the end last, with one turn and at most one message left open. |
| `AgentRun.Run.PushMessages` | crates/pi-agent/src/agent_loop.rs:197-219 | Messages given to the run are shown, finalized and recorded in order until the hook refuses one; each recorded message is what the hook made of it. |
| `AgentRun.Run.PushPending` | crates/pi-agent/src/agent_loop.rs:359-391 | Before each request, if the hook leaves messages alone, the transcript declares exactly the executable tools, under the exact condition above. |
| `AgentRun.Run.PrepareTurn` | crates/pi-agent/src/agent_loop.rs:329-357 | After a turn the preparation is asked first, then the queue once more if it was empty; a first turn takes what is queued. |
| `AgentRun.Run.ReadStream` | crates/pi-agent/src/agent_loop.rs:848-960 | The partial replies that are shown are those from the first start on, each in the place of the one before. |
| `AgentRun.Run.FinishAssistantMessage` | crates/pi-agent/src/agent_loop.rs:962-1007 | The final reply takes the place of the partial one, and is taken out again if finalizing fails. |
| `AgentRun.Run.StreamAssistantResponse` | crates/pi-agent/src/agent_loop.rs:702-960 | With at most one start the context grows by exactly the reply; every further start leaves one stale partial reply behind. The reply is what the hook made of the final message of the stream. |
| `AgentRun.Run.AnswerCall` | crates/pi-agent/src/agent_loop.rs:1892-1915 | The result message is what the hook made of the outcome, and keeps the id of its call whatever the hook does. |
| `AgentRun.Run.FailToolCallsFromTruncatedMessage` | crates/pi-agent/src/agent_loop.rs:1095-1138 | No call of a truncated reply is executed, each is answered, and the loop goes on. |
| `AgentRun.Run.ExecuteToolCallsSequential` | crates/pi-agent/src/agent_loop.rs:1187-1268 | At no point are two calls under way; all are answered, each from its own outcome, unless the run is cancelled; an outcome is that of the preparation, or of an execution after it; the batch terminates exactly if all outcomes say so. |
| `AgentRun.Run.StartTasks` | crates/pi-agent/src/agent_loop.rs:1291-1331 | Parallel calls start in order until cancelled; those answered at once end at once. |
| `AgentRun.Run.JoinTasks` | crates/pi-agent/src/agent_loop.rs:1333-1375 | For every interleaving of the running calls each one ends exactly once. |
| `AgentRun.Run.ExecuteToolCallsParallel` | crates/pi-agent/src/agent_loop.rs:1275-1393 | For every interleaving the results come in call order, one for each call that started, each from the outcome of that call. |
| `AgentRun.Run.AnswerTasks` | crates/pi-agent/src/agent_loop.rs:1375-1393 | The result messages of the finished calls come in call order, whatever order they finished in. |
| `AgentRun.Run.ExecuteToolCalls` | crates/pi-agent/src/agent_loop.rs:1141-1184 | One call at a time if the reply was truncated, the run is sequential or a called tool asks for it; in every case each result answers its own call, unanswered calls mean a cancellation, and only a refused message fails the batch. |
| `AgentRun.Run.FinishTurn` | crates/pi-agent/src/agent_loop.rs:433-546 | A reply leads to tools, the end of the turn, and the decision to go on. |
| `AgentRun.Run.RunTurn` | crates/pi-agent/src/agent_loop.rs:330-546 | A turn takes exactly the messages that are due, with the tool changes declared; it ends the run with a well-formed sequence of events or leaves it between two turns; only a failed reply or the hook completes the run, only a refused message fails it. |
| `AgentRun.Run.RunLoop` | crates/pi-agent/src/agent_loop.rs:310-571 | On success and on failure alike the final context is the initial one and the new messages, the finished messages are the new messages and so is what the end reports. A run completes only because a reply failed, the hook ended it, or nothing was queued and no continuation asked for; it fails only because the hook refused a message. |
| `AgentRun.Run.TryRun` | crates/pi-agent/src/agent_loop.rs:183-235 | The same for a run with prompts. |
| `AgentRun.Run.RunContinue` | crates/pi-agent/src/agent_loop.rs:238-273 | Refuses an empty context and one that ends with the assistant, without any event; otherwise the same. |
| `Agent.RunsAreFramed` | crates/pi-agent/src/agent.rs:1082-1156 | Every run of the loop opens and closes messages inside turns and turns inside the run. |
| `Agent.PrefixIsFramed` | crates/pi-agent/src/agent.rs:1082-1156 | So does every prefix of one. |
| `Agent.FrameAgrees` | crates/pi-agent/src/agent.rs:1082-1156 | The flags of the active run say how many starts lack their end. |
| `Agent.ClosingCompletes` | crates/pi-agent/src/agent.rs:986-1059 | Wherever a run breaks off, the closing events give it exactly one start and one end, close every turn and message, and finish the failure message last. |
| `Agent.Agent.BeginRun` | crates/pi-agent/src/agent.rs:906-942 | Refused while another run is active. |
| `Agent.Agent.ProcessEvent` | crates/pi-agent/src/agent.rs:1082-1156 | An event of the active run adds exactly its finished message; one of any other run changes nothing. |
| `Agent.Agent.HandleRunFailure` | crates/pi-agent/src/agent.rs:986-1059 | Unless the end was seen, the listeners get the closing events and the state the failure message. |
| `Agent.Agent.FinishRun` | crates/pi-agent/src/agent.rs:1061-1080 | Ends the active run and no other one. |
| `Agent.Agent.FollowRun` | crates/pi-agent/src/agent.rs:906-984 | After a whole run the state has gained exactly the messages the run finished. |
| `AgentAgreement.Prompt` | crates/pi-agent/src/agent.rs:906-984 | On success and on failure alike the messages of the agent grow by exactly the new messages of the loop, are then the final context of the loop, and no run is active. |
| `AgentAgreement.Continue` | crates/pi-agent/src/agent.rs:986-1059 | The same for a run that continues; a refused one adds the failure message and nothing else. |
| `Agent.GoodRunLeavesNoCall` | crates/pi-agent/src/agent.rs:1082-1156 | The set of pending tool calls is empty after a completed run, however its batches interleaved. |
| `Agent.PendingMessageQueue.Drain` | crates/pi-agent/src/agent.rs:59-65 | What is drained is the front of the queue, one message or all, and nothing is lost. |
| `SchemaCheck.DepthDoesNotMatter` | crates/pi-agent/src/validation.rs:568-600 | Below the call limit a check does not depend on the depth at which it runs. |
| `SchemaAgree.FastAndSlowAgree` | crates/pi-agent/src/validation.rs:2103-2239 | Without references, dependencies and flags for exclusive bounds, and nested below the limit, the walk complains about a value exactly when the check rejects it, so the general error is never needed. |
| `SchemaAgree.WalkIsSilent` | crates/pi-agent/src/validation.rs:2143-2239 | For every reference-free schema below the depth limit the walk finds nothing exactly where the schema is silent. |
| `SchemaAgree.UnionAgrees` | crates/pi-agent/src/validation.rs:2640-2716 | Whatever branch is blamed, by tag or by the heuristic, something is reported unless the union holds, or none holds and the tagged branch is silent. |
| `SchemaAgree.ObjectAgrees` | crates/pi-agent/src/validation.rs:2401-2549 | The object keywords, patterns, additional properties and names. |
| `SchemaAgree.ArrayAgrees` | crates/pi-agent/src/validation.rs:2551-2638 | The array keywords, prefixes and contains. |
| `SchemaAgree.NodeSees` | crates/pi-agent/src/validation.rs:2143-2239 | What exactly the walk of a node looks at. |
| `SchemaAgree.SilentExactly` | crates/pi-agent/src/validation.rs:2143-2239 | For every reference-free schema and every value, at any nesting: the general error is reported exactly when the value is rejected but passes everything the explainer looks at, the check deciding where the explainer only asks, silence where it walks on. |
| `SchemaAgree.PlainIsExact` | crates/pi-agent/src/validation.rs:2103-2239 | Without dependencies and flags, here and below, a schema is silent only about values it accepts. |
| `SchemaAgree.DependenciesAreNotExplained` | crates/pi-agent/src/validation.rs:914-962 | A violated `dependencies` that only the general error reports. |
| `SchemaAgree.FlagIsNotExplained` | crates/pi-agent/src/validation.rs:2369-2388 | A violated boolean exclusive bound that only the general error reports. |
| `SchemaAgree.PointerRoundTrip` | crates/pi-agent/src/validation.rs:2928-2931 | A key written into a pointer reads back as itself. |
| `SchemaGuards.CompileState.CompileNode` | crates/pi-agent/src/validation.rs:568-678 | Compiling ends for every schema, cyclic or not, restores the set of references being compiled, and sets the slots of its code. |
| `SchemaGuards.CompileIsClosed` | crates/pi-agent/src/validation.rs:611-678 | Slots are numbered once each, and a slot is entered only inside its definition. |
| `SchemaGuards.CompileInstalls` | crates/pi-agent/src/validation.rs:602-664 | Whatever slot a check of the compiled code can ever enter is set, and to the closure of its own reference. |
| `SchemaGuards.CompileAndCheck` | crates/pi-agent/src/validation.rs:555-600 | Compiling and checking end for every schema and value, without ever meeting a slot that is not set, and leave the state of the thread as it was. |
| `SchemaGuards.CheckState.CheckNode` | crates/pi-agent/src/validation.rs:139-173 | A check answers what the guarded evaluation answers; depth and stack are within their limits, without repetitions, at every nested check, and are restored. |
| `SchemaGuards.CheckState.CheckSlot` | crates/pi-agent/src/validation.rs:175-207 | A reference is never followed twice at once on the same value, and the stack is restored. |
| `SchemaGuards.CheckState.RunPlan` | crates/pi-agent/src/validation.rs:568-600 | The keywords of a node ask nested checks one after the other, each question depending on the answers before, and decide. |
| `SchemaGuards.SelfReferenceRejects` | crates/pi-agent/src/validation.rs:602-609 | A schema that only refers to itself compiles and rejects every value. |
| `SchemaKept.KeptExactly` | crates/pi-agent/src/validation.rs:1271-1279 | For every schema without references and every valid value, the three passes keep the value if and only if, on the way the conversion walks, no number beyond 64 bits meets the type integer and no value that is not an array meets a node that expects one by its items alone. |
| `SchemaKept.PassIsPredicted` | crates/pi-agent/src/validation.rs:1342-1856 | What each pass does to valid values at every depth. |
| `SchemaKept.GrownStays` | crates/pi-agent/src/validation.rs:1375-1856 | Once a value was made an array, or a number beyond 64 bits was capped, no conversion or coercion by any schema undoes it. |
| `SchemaKept.CoercionKeepsValid` | crates/pi-agent/src/validation.rs:1271-1279 | A schema without a node of that kind, single-schema typed items among them, keeps every valid value without numbers beyond 64 bits. |
| `SchemaKept.ParseIsIdempotentExactly` | crates/pi-agent/src/validation.rs:456-470 | Parsing what was parsed gives it back if and only if nothing in it meets such a change. |
| `SchemaKept.EqualSymmetric` | crates/pi-agent/src/validation.rs:2883-2904 | The comparison of values is symmetric when the keys of the first one differ. |
| `SchemaKept.IntegerKeptExactly` | crates/pi-agent/src/validation.rs:1511-1514 | A whole number of type integer is kept if and only if it fits 64 bits. |
| `SchemaKept.UntypedItemsWrap` | crates/pi-agent/src/validation.rs:1580-1630 | Without a type, an items schema changes a valid number. |
| `CacheWarmer.DelayLeavesRoom` | crates/pi-runtime/src/cache_warmer.rs:28-35 | The delay exists above ten seconds of lifetime and is the longest one that leaves a tenth of it and ten seconds. |
| `CacheWarmer.CacheWarmer.Start` | crates/pi-runtime/src/cache_warmer.rs:359-432 | A newer request ends the run before it and starts its own, or says why not. |
| `CacheWarmer.CacheWarmer.Schedule` | crates/pi-runtime/src/cache_warmer.rs:488-523 | When the run is due, when it is too late, and whether it is too old. |
| `CacheWarmer.CacheWarmer.StopRun` | crates/pi-runtime/src/cache_warmer.rs:680-705 | Stops this run and no other. |
| `CacheWarmer.CacheWarmer.BeginRefresh` | crates/pi-runtime/src/cache_warmer.rs:535-546 | Marks this run and no other as refreshing. |
| `CacheWarmer.CacheWarmer.OnAgentSettled` | crates/pi-runtime/src/cache_warmer.rs:434-454 | Turns the run idle or stops it. |
| `CacheWarmer.CacheWarmer.OnModeChanged` | crates/pi-runtime/src/cache_warmer.rs:456-463 | Stops the active run exactly if the mode no longer allows it. |
| `CacheWarmer.MoveKeepsWarmer` | crates/pi-runtime/src/cache_warmer.rs:535-670 | A step of a chain touches only its own run, and never leaves an active run without a chain that goes on. |
| `CacheWarmer.StaleChainIsHarmless` | crates/pi-runtime/src/cache_warmer.rs:680-705 | A chain whose run is not the active one changes nothing and sends nothing. |
| `CacheWarmer.NextKeepsInv` | crates/pi-runtime/src/cache_warmer.rs:359-738 | Every step of every interleaving keeps the invariant. |
| `CacheWarmer.WarmingIsBounded` | crates/pi-runtime/src/cache_warmer.rs:488-738 | In every reachable state there is one chain per run, every request was within the age window and before the expiry at its last checks, and the requests of a run times its delay stay within an hour. |
| `ModelsRefresh.Registry.NextRefreshGeneration` | crates/pi-ai/src/models.rs:552-568 | Generations of an id grow by one. |
| `ModelsRefresh.Registry.SetProvider` | crates/pi-ai/src/models.rs:591-599 | Replacing a provider supersedes the refreshes under its id and no others. |
| `ModelsRefresh.Registry.DeleteProvider` | crates/pi-ai/src/models.rs:601-609 | So does deleting it. |
| `ModelsRefresh.Registry.ClearProviders` | crates/pi-ai/src/models.rs:611-621 | Clearing supersedes the refreshes of exactly the registered ids. |
| `ModelsRefresh.Registry.BeginRefresh` | crates/pi-ai/src/models.rs:897-912 | A refresh starts only for the object that is registered. |
| `ModelsRefresh.NextKeepsInv` | crates/pi-ai/src/models.rs:894-1029 | Every step of every interleaving keeps the invariant. |
| `ModelsRefresh.RefreshNeverGoesBackwards` | crates/pi-ai/src/models.rs:894-1029 | Fetched catalogs are published in strictly increasing order of generations; a current refresh belongs to the registered provider; with a store that works, what is stored is the catalog published last and was still current after it was stored. |
| `ModelsRefresh.SupersededLeavesNothing` | crates/pi-ai/src/models.rs:982-1010 | Over all interleavings, with a store that works: a publication that saw itself superseded after its write is never what is stored when the lock is free, and nothing is stored as long as nothing is published after it. |
| `ModelsRefresh.ModelsNeverGoBack` | crates/pi-ai/src/models.rs:918-1000 | With a store that works, no models of a provider are replaced by older ones. |
| `OAuthRefresh.InMemoryCredentialStore.Set` | crates/pi-ai/src/auth.rs:386-393 | Writes one credential and no other. |
| `OAuthRefresh.InMemoryCredentialStore.RefreshStored` | crates/pi-ai/src/auth.rs:440-464 | Refreshes exactly a stored token that is not fresh enough, and stores exactly a success. |
| `OAuthRefresh.NextKeepsInv` | crates/pi-ai/src/auth.rs:1458-1554 | Every step of every interleaving keeps the invariant. |
| `OAuthRefresh.RotationIsSingleFlight` | crates/pi-ai/src/auth.rs:1458-1554 | At most one refresh is in flight; it spends the credential that is stored; a success is stored before the lock is free; the history is a chain of such rotations. A caller that asks for a validity is served only a token that has it. |
| `OAuthRefresh.FreshTokenIsNotRefreshed` | crates/pi-ai/src/auth.rs:1484-1514 | While the stored token is fresh enough for everyone, no caller, waiting or new, refreshes it. |
| `OAuthRefresh.StartedRefreshIsStored` | crates/pi-ai/src/auth.rs:1517-1532 | Over all interleavings, a refresh that has started is never cancelled, whoever gives up: the token the server answers enters the history, is stored before the lock is free, and is what the caller is told; a failure leaves the credential as it was. |

## Left out

- Numbers.GrammarNumberReads: a number that is not an integer of 64 bits is kept as its literal; rounding to a double is not modelled, only whether the double is finite.
- StreamingRead.ReadsGrammar: escapes of surrogates without a partner, which the grammar allows and the parser replaces, are not among the texts.
- Json.InsertIsMapUpdate: objects list their entries in the order of first appearance; the source keeps them sorted by key, so only the map is comparable.
- StreamingParser.StreamingJsonParser.SnapshotRef: the weight counter is an unbounded natural number; the linear bound is stated below the saturation of the credit.
- PrefixAgreement.PrefixApproximation: texts that repeat a key are excluded, since a later member then replaces one that was already shown; `SnapshotIsShown` covers them.
- AgentRun.Run.RunLoop: hooks that replace the whole context are left out, as the agreement is about one context; a run is watched for any number of turns that is given; a stream is what arrives until it ends, fails or is cut off, so the 50 ms grace and the event stream object are not modelled; at most one start per stream is required, and `StreamAssistantResponse` says what a second one does.
- AgentRun.Run.ExecuteToolCalls: looking up, validating and blocking a call, and rewriting its result, are answers of the outside; usage, details and durations are left out.
- HistoryRewrite.RewriteHistory: timestamps of user messages, usage and details are left out; whitespace follows the Unicode property as a list of characters.
- OrphanRepair.RepairOrphans: all results synthesized in one pass carry one timestamp.
- SchemaAgree.FastAndSlowAgree: error messages are left out, numbers are reals, and regular expressions, formats and the multiple-of test are arbitrary functions; schemas that do not compile are not represented; references are treated in `SchemaGuards` only; that the reported list is empty exactly for accepted values is immediate from its definition and has no row.
- SchemaGuards.CheckState.CheckNode: the keywords of a schema are an arbitrary finite tree of questions to nested checks, a reference string resolves through a given finite map, and validators with different depth limits do not run inside one another.
- SchemaKept.KeptExactly: schemas with references are left out; numbers are the reals they read as, and a cast to 64 bits is read as a double again; reading text as a number or a truth value and writing numbers are arbitrary functions, but for one law: a number of 64 bits, once written, does not read back as one beyond them.
- CacheWarmer.WarmingIsBounded: the economics of a decision are an oracle; nine tenths of the lifetime are taken in integers, which the source takes in doubles; the expiry counts from the moment of scheduling.
- ModelsRefresh.RefreshNeverGoesBackwards: the system holds the state of one provider id, as different ids share nothing; credentials are left out; a cancelled refresh may stop at any step.
- OAuthRefresh.RotationIsSingleFlight: the system holds the state of one provider; a server that does not answer in time is one that fails.
- Strict JSON parsing of finished arguments, the fallback object for malformed ones, and rendering of system sections and tool notices.
- Requests to providers: HTTP, headers, retries, identities, prices, image codecs, login flows and file storage.
- Status texts of the cache warmer while a run is active, and its record of the last decision.
- Schema anchors and pointers to schemas: resolving a reference is a given map, only the escaping of keys is modelled.
