# Verification of CodexCommander's stateful cores

A Dafny 4.11 model of the parts of CodexCommander where many small steps have to add up: the bridge that turns
adapter events into a Responses stream, the reconciliation and persistence of the configuration, the budget and
relay of the inference pilot, and a few small algorithms. `dafny verify dfyconfig.toml` checks everything.

## How it is laid out

- `Text`, `Responses`: strings as UTF-16 code units, and the data the bridge exchanges. Item ids are fresh tokens.
- `Freeform`: the streaming decoder of freeform tool arguments and its live preview.
- `Translator`: what each bridge helper and each event does to the bridge's state, as functions. `Bridge`: the same
  as a class whose methods update the registers, each proved to do what its function says. `Batch`: the independent
  batch translator, its loop proved against its own functions.
- `Refinement`, `Divergence`: stream against batch, and for each restriction a run where they part. `Calls`,
  `Reasonings`, `Answers`: what the items of a stream carry and how it ends, read off the list of events alone;
  `BatchAnswers`: the same for the batch translator. `Dense`, `DenseRuns`, `Lifecycle`, `TurnEnds`, `Progress`: output
  indices, item lifecycles, what a turn leaves open and frame order over all runs.
- `Wire`, `WireProtocol`, `WireRun`, `WireSlips`, `WireSteps`, `WireDone`, `WireEnds`, `KeepAlive`: the connection
  around the translator as a step relation over pulls, adapter results, beat ticks, cancellation, enqueue failures and
  exceptions. A list of actions is one interleaving.
- `Merge`, `ReconcileInPlace`: the three-way merge as a function with its laws, and the in-place merge of the live
  object tree proved to compute it. `LiveSave`, `LiveConfig`: guarded saves, as a state machine and as methods on
  the live tree. `ConfigMutation`: the optimistic mutation loop against interfering writers. `ConfigInit`: any number
  of processes creating the file at once.
- `PilotBudget`, `Budget`, `PilotRelay`: reservations and claims over all interleavings. `Utf8`, `ChunkedReader`,
  `EventScan`, `SseFraming`, `SseEvents`: the event-stream reader, for any decoder that obeys a short list of laws and
  then for UTF-8, and what its delimiters, lines and data are.
- `Alignment`, `TaskXml`, `Effort`: nearest-sample alignment, XML escaping, effort mapping.

Passed in as functions, with nothing assumed about them: JSON parsing of arguments and of event data, schema
coercion, the plaintext marking, the schema check of a configuration, serialization, the mutation callback, and
what other writers leave in the file. Time enters as ticks or as a parameter.

## Where the code is not what its description says

- The preview decoder drops the backslash of `\b` and `\f` (src/bridge.ts:229-238); the round trips hold exactly
  without them.
- Malformed tool arguments end the stream but not the batch, which goes on and also reports `adapter_eof`; a search
  that is open then stays open on the stream (src/bridge.ts:1090-1119, `TurnEnds.MalformedCallLeavesSearchOpen`), and
  nothing else ever does (`TurnEnds.EndIsClosedExactly`). An empty stop reason counts as a clean end for the stream's
  inferred phase only. The compaction item has a `done` frame and no `added` frame (`DenseRuns.CompactionFrames`).
- An item can be emitted at the index of one that stays open: by a late signature, an unpaired search end, anything
  said while a search is open, and by the flushes of hidden raw text and redacted blocks
  (`DenseRuns.HiddenFlushReusesIndex`). `DenseIndices.Overlaps` is the exact guard, for every configuration and event.
- A budget exception inside the closings at the end of the input, or after the adapter failed, is caught by nobody:
  the stream is errored and no terminal goes out (`WireProtocol.TerminalIsLost`, exactly then by `PlayErrors`). Inside
  the closings of a stall it escapes the timer, and the turn goes on from a half-closed state: the next tick finishes
  the same item again (`WireSlips.SlippedStallRepeatsItem`).
- A save that throws after adopting a hand edit, refused on validation or failing to write, leaves the edit in memory
  but not in the baseline, so a later save may override the next hand edit (`LiveSave.RefusedSaveLosesTheNextHandEdit`,
  `FailedSaveLosesTheNextHandEdit`). `QuietStepsStayClean` says exactly when.
- `existing` from the initializer is not durable (`ConfigInit.ExistingIsNotDurable`); `DurableExactly` says when it is.
- The relay's reader checks size and decoding of a whole chunk before it looks for events, so a fault after the
  decisive event matters if both come in one chunk (`ChunkedReader.DecidedAtSomeChunkEnd`).

## Model

| member | source | states |
|---|---|---|
| `Freeform.FreeformPartialInput` | src/bridge.ts:219-241 | the index loop computes the decoded part of the wrapper body: everything up to the closing quote or the first incomplete or malformed escape, and the raw buffer if the wrapper prefix is missing |
| `Freeform.DecodeBodyMonotone` | src/bridge.ts:219-241 | more arguments only extend what is decoded |
| `Freeform.PartialInputMonotone` | src/bridge.ts:1076-1083 | once a buffer goes past the opening text of the wrapper, or departs from it, more arguments only extend the preview |
| `Freeform.FeedKeepsInStep` | src/bridge.ts:1072-1086 | after each delta what was emitted is exactly the preview of the buffer (nothing while it is ambiguous), so the `startsWith` guard never rejects |
| `Freeform.PreviewIsChunkingInvariant` | src/bridge.ts:1072-1086 | for every splitting into deltas the emitted payloads concatenate to the preview of the whole argument string |
| `Freeform.DecodeSpelling` | src/bridge.ts:219-241 | decoding any RFC 8259 spelling of a string gives that string if and only if no `\b` or `\f` escape occurs in it |
| `Freeform.WrapperRoundTrip` | src/bridge.ts:218-241 | the same for the whole wrapper object, and every truncation that keeps the prefix decodes to a prefix |
| `Freeform.StringifyRoundTrip` | src/bridge.ts:218-241 | the wrapper around `JSON.stringify(s)` decodes to `s` if and only if `s` has neither U+0008 nor U+000C |
| `BridgeObject.Bridge.CloseCurrentToolCall` | src/bridge.ts:599-670 | the completed call, by kind: tool search parsed, freeform unwrapped, function arguments coerced and `{}` for nothing |
| `BridgeObject.Bridge.FailCurrentToolCall` | src/bridge.ts:671-721 | the incomplete call; a withheld tool search is announced and its deltas replayed first |
| `BridgeObject.Bridge.OnCallDelta` | src/bridge.ts:1056-1089 | arguments grow; a freeform call emits the new part of the preview, a tool search withholds its deltas |
| `BridgeObject.Bridge.Handle` | src/bridge.ts:886-1277 | one adapter event, dispatched |
| `BridgeObject.Bridge.QueueSources` | src/bridge.ts:1151-1160 | the loop queues each source whose URL is not queued yet |
| `BridgeObject.Bridge.Drain` | src/bridge.ts:845-1338 | the pull loop over a list of events, ended by a terminal event or the end of input, comes to `Translator.Run`; it leaves an ordinary turn's items accounted for, all of them completed if searches end before the next call, and an orderly turn's indices dense |
| `BatchTranslator.BuildResponseJSON` | src/bridge.ts:1658-1890 | the batch loop and its trailing flushes come to `BatchTranslator.Build` |
| `BatchAnswers.BatchAnswerIsTold` | src/bridge.ts:1658-1890 | in every mode, compaction and hidden reasoning included, and for every list of events: of each kind the items of the answer, in order, are those the events tell, read off the list alone, and its outcome is what the last failure, the last incomplete end and the last normal end say |
| `BatchAnswers.StepHeard` | src/bridge.ts:1658-1812 | one event does to messages, searches, reasoning, calls and collected text what the log of each kind says |
| `Refinement.StreamRefinesBatch` | src/bridge.ts:514-721 | for every list of admissible events with paired searches, the stream's finished items (ids erased), status, end-of-turn hint, failure and reason are those of the batch translator on the events the stream consumed; malformed arguments differ exactly in the reason the batch adds |
| `Refinement.SimStep` | src/bridge.ts:1658-1812 | one event keeps both translators in step, or ends both alike |
| `Refinement.SimSearchPair` | src/bridge.ts:1120-1163 | a search begin and its end, together, keep both in step |
| `Refinement.EndDone` | src/bridge.ts:1164-1218 | the clean end: same items, phases, status and hint |
| `Refinement.EndAbandoned` | src/bridge.ts:1843-1890 | the abnormal ends: same items, the open call incomplete |
| `Refinement.EndMalformed` | src/bridge.ts:1090-1119 | the malformed end: same items, the batch adding `adapter_eof` |
| `Divergence.EmptyDeltaDiverges` | src/bridge.ts:901-939 | an empty text delta makes an item on the stream and none in the batch |
| `Divergence.EmptyPayloadDiverges` | src/bridge.ts:940-1055 | so do empty thinking, empty raw reasoning and a call without an id |
| `Divergence.EmptyStopReasonDiverges` | src/bridge.ts:1164-1182 | an empty stop reason gives the message the final-answer phase on the stream only |
| `Divergence.OpenSearchDiverges` | src/bridge.ts:1120-1137 | a search without its end is an item on the stream and none in the batch |
| `Divergence.UnpairedSearchDiverges` | src/bridge.ts:1138-1163 | a search end without a begin, while a message is open: the items come in the opposite order |
| `Divergence.LateSearchEndDiverges` | src/bridge.ts:1138-1163 | so they do if text comes between begin and end |
| `Divergence.BlockDiverges` | src/bridge.ts:976-986 | a redacted or Kiro block before the end of the input is an item in the batch and none on the stream |
| `Divergence.HiddenReasoningDiverges` | src/bridge.ts:1689-1699 | hidden reasoning splits the message in the batch and not on the stream |
| `Divergence.CompactionDiverges` | src/bridge.ts:871-886 | a compaction turn drops its reasoning on the stream and keeps it in the batch |
| `Divergence.NamespacedSearchDiverges` | src/bridge.ts:671-690 | a namespaced tool search that is cut off names its namespace on the stream only |
| `Divergence.SchemaLookupDiverges` | src/bridge.ts:601-606 | a schema found only under the real name of a namespaced tool coerces arguments on the stream only |
| `Divergence.BudgetErrorDiverges` | src/bridge.ts:1243-1248 | a budget error drops the open message on the stream and not in the batch |
| `DenseIndices.IndicesCountItems` | src/bridge.ts:370-378 | in every reachable state of an orderly run the next index is the number of finished items, the k-th `added` and the k-th `done` carry index k and are about the k-th finished item, and all frames in between agree with them |
| `DenseIndices.IndicesAreDense` | src/bridge.ts:514-663 | every reachable state of a turn and its end is dense, if and only if no event and no end of input arrives while it would overlap an open item, for every configuration |
| `DenseIndices.DenseStep` | src/bridge.ts:888-1277 | for every configuration, event and dense state: the step keeps density if and only if it does not overlap an open item (a guard on the state before the step: a search is open, or hidden raw text or a redacted block would be flushed under an item that stays open) |
| `DenseIndices.OrderlyIsDense` | src/bridge.ts:888-1277 | over every run the guard misses nothing: a run is orderly exactly if all its reachable states are dense |
| `DenseIndices.DenseText` | src/bridge.ts:901-939 | text keeps density exactly if no search is open, no redacted block is pending under a message, raw reasoning or call, and no hidden raw text under a message or call |
| `DenseIndices.DenseBoundary` | src/bridge.ts:889-900 | a boundary keeps density exactly if no hidden raw text is pending under a call or search and no redacted block under a search |
| `DenseRuns.VisibleTurnIsOrderly` | src/bridge.ts:987-1001 | in visible mode the end of the input never overlaps anything |
| `DenseRuns.PairedIsOrderly` | src/bridge.ts:964-1163 | directly paired searches and signatures right behind their thinking make a plain run orderly |
| `DenseRuns.HiddenFlushReusesIndex` | src/bridge.ts:448-467 | the shortest such run: a flush announces a second item at the index of the open message (`DenseIndices.DenseStep` says exactly when) |
| `DenseRuns.CompactionFrames` | src/bridge.ts:1177-1200 | all the frames of a compaction turn: one item `done` without `added`, holding the collected text, then the terminal; only the terminal if it stopped short |
| `TurnEnds.EndIsClosedExactly` | src/bridge.ts:1090-1119 | nothing is open when the terminal of an ordinary turn goes out, if and only if no malformed tool call ended while a search was open |
| `TurnEnds.ItemsCompletedExactly` | src/bridge.ts:514-721 | over a whole turn, visible or hidden, an item created has one `added` before one `done`, nothing about it outside, and deltas that agree with the finished item (they spell its text; for calls `Calls.CallsCarryTheirArguments` says what they spell), if and only if it is not a search so cut off |
| `TurnEnds.EveryItemIsCompleted` | src/bridge.ts:1027-1163 | if no tool call starts while a search is open, nothing is open at the end and every item is completed |
| `TurnEnds.OutsideEndsAreClosed` | src/bridge.ts:1283-1329 | end of input, stall and exception leave nothing open, at any point of a turn |
| `TurnEnds.MalformedCallLeavesSearchOpen` | src/bridge.ts:1090-1119 | four events that leave a search open at the end |
| `Calls.CallsCarryTheirArguments` | src/bridge.ts:1027-1119 | the call items of a turn are, in order, the calls started, each with the concatenation of the argument deltas that came while it was open: coerced, parsed or unwrapped by kind if completed, raw if cut off; and the deltas sent for each spell that concatenation, for a freeform call its preview, for a tool search nothing unless it was cut off |
| `Calls.CloseCallTied` | src/bridge.ts:599-670 | completing a call sends no delta more, and its item is the one the log says |
| `Calls.FailCallTied` | src/bridge.ts:671-721 | cutting a call off sends the withheld deltas of a tool search and nothing else |
| `Calls.FinishedStays` | src/bridge.ts:328-348 | what was sent for a finished item never changes |
| `Reasonings.ReasoningIsTold` | src/bridge.ts:940-1026 | over every turn, hidden or visible: the reasoning items, in order, are what the events tell, read off the list alone: each carries exactly the thinking, the raw reasoning, the redacted blocks and the signature since the event that ended the stretch before, in an envelope or shown; after a normal end the Kiro block too |
| `Reasonings.BrokenOffIsTold` | src/bridge.ts:1283-1329 | a turn broken off while it runs still tells its visible summary and raw reasoning and its hidden raw reasoning, and drops hidden thinking, blocks and signature |
| `Answers.MessagesAndSearchesAreTold` | src/bridge.ts:901-939 | over every turn, hidden or visible: the messages, in order, carry the text between two events that end them, their phase, and each URL found before them once; the searches carry what their own end said, or count as completed or failed if it never came |
| `Answers.OutcomeIsTold` | src/bridge.ts:1164-1277 | only the last event taken in ends the turn, a terminal one always does, and status, hint, failure and reason are the ones that event says; an input that just ends is `adapter_eof` |
| `Answers.OutsideEndsAreTold` | src/bridge.ts:1283-1372 | end of input, stall and exception tell the open message, fail the open search and say why: `adapter_eof`, `upstream_stall_timeout`, the message of the exception |
| `Lifecycle.ItemsLiveProperly` | src/bridge.ts:888-1329 | every reachable state accounts for every item with at most one of message, summary, raw and call open, and at the terminal only a search may be open (`TurnEnds` says when) |
| `Lifecycle.LifeMeaning` | src/bridge.ts:514-663 | the running account of an item is what its frames say: single `added`, single `done`, deltas in between |
| `Lifecycle.LivelyFailCall` | src/bridge.ts:671-721 | failing a call, the withheld tool search included, keeps the account |
| `Lifecycle.LivelyCallDelta` | src/bridge.ts:1056-1089 | an argument delta keeps the account, with the emitted preview of a freeform call |
| `Progress.StepMoves` | src/bridge.ts:888-1277 | a handler only appends frames, and ends the turn exactly by appending its terminal frame last |
| `Progress.AbnormalEndsConclude` | src/bridge.ts:1283-1329 | so do the ends by exception, end of input and stall |
| `WireProtocol.TerminalProtocol` | src/bridge.ts:806-862 | for every interleaving of pulls, adapter results, ticks and cancellation, with any emission failing or overflowing, any handler throwing a budget exception or another one half-way, and any closings throwing: at most one terminal frame, only one `[DONE]` behind it, at most one report and the matching one; a connection over without cancel or enqueue failure has sent its terminal, except exactly when the closings of `step` itself threw |
| `WireProtocol.PlayErrors` | src/bridge.ts:1278-1330 | the stream is errored if and only if some action was such an exception while the connection stayed open |
| `WireProtocol.TerminalIsLost` | src/bridge.ts:1308-1326 | it happens: four actions after which a message is open, no terminal was sent and nobody was told |
| `WireProtocol.SilentAfterError` | src/bridge.ts:328-348 | nothing is enqueued after such an error, however the run goes on |
| `WireProtocol.SilentAfterClose` | src/bridge.ts:328-367 | nothing is enqueued and nothing reported after the close, however the run goes on |
| `WireSlips.PlaySlips` | src/bridge.ts:1278-1366 | the registers are no longer those of the events handled if and only if some handler or closings threw half-way |
| `WireSlips.SlippedStallRepeatsItem` | src/bridge.ts:1348-1366 | after any interleaving: if the closings of a stall throw once the open message was announced as done, the next counted tick announces it as done again |
| `WireSlips.SilentMessageGivesUp` | src/bridge.ts:1343-1354 | such a connection is reached |
| `WireRun.WireCarriesTheTurn` | src/bridge.ts:845-1386 | over every interleaving the frames enqueued are the first frames of the translator's state, and all of them unless the connection was cancelled, an enqueue failed or the budget overflowed; that state is the run on the events handled, possibly ended by end of input, stall or exception, unless something threw half-way (an errored stream then drops what was not read yet) |
| `WireEnds.ClientGetsBatchAnswer` | src/bridge.ts:845-1338 | over every interleaving with admissible events: a turn that ends by itself without a fault puts a terminal frame on the wire that lists the items `BatchTranslator.Build` puts out for the events consumed, with its status, hint, failure and reason |
| `WireEnds.NeverHangs` | src/bridge.ts:845-862 | over every interleaving a connection that is neither closed nor errored waits for the adapter, or the next pull makes it wait |
| `WireDone.DoneFollows` | src/bridge.ts:1330-1341 | over every interleaving in which no emission overflows by itself: a connection over without cancel or failed enqueue ends with its terminal frame and `[DONE]` |
| `WireEnds.TicksCountWhileWaiting` | src/bridge.ts:1343-1351 | over every interleaving a tick counts exactly while an open step waits for the adapter, and does nothing at all otherwise |
| `WireEnds.CancelSilences` | src/bridge.ts:1400-1408 | over every interleaving a client that cancels gets nothing more, and no end of the turn is reported any more |
| `WireEnds.EachEndHasItsReason` | src/bridge.ts:1278-1372 | each event moves the translator by its own step, and end of input, exception and stall each by its own end |
| `WireSteps.StepTakesUntilAFrame` | src/bridge.ts:849-851 | over every interleaving a step waits for another event exactly if nothing, not even a heartbeat, has gone out since it began |
| `WireRun.CleanEndDeliversRun` | src/bridge.ts:1308-1338 | a turn that ends by itself without a fault delivers exactly the frames of `Translator.Run` on the events handled |
| `WireRun.ActFollows` | src/bridge.ts:845-1409 | every action keeps wire and translator in step |
| `WireProtocol.TranslatorIsLawful` | src/bridge.ts:886-1329 | the translator gives the connection what the protocol proof asks of it |
| `WireProtocol.ActKeepsProto` | src/bridge.ts:1343-1409 | every action keeps the protocol invariant |
| `WireProtocol.OverflowKeepsProto` | src/bridge.ts:806-843 | the overflow escape keeps it, whichever of its own frames can still be sent |
| `WireProtocol.EndTurnKeepsProto` | src/bridge.ts:1308-1338 | so does the end of a turn, emission by emission |
| `KeepAlive.ResolveStallSeconds` | src/stall-timeout.ts:15-20 | 300 seconds if nothing is configured, else the least integer that is at least one and not below the configured value |
| `KeepAlive.TicksSpanTheBudget` | src/bridge.ts:388-389 | the tick budget is the least number of heartbeats that spans the stall seconds |
| `KeepAlive.StallAndKeepAlive` | src/bridge.ts:1348-1389 | over every interleaving a counted tick gives the turn up if and only if the counted ticks since the last adapter event reach the budget, and otherwise sends a heartbeat exactly if nothing went out since the previous such tick, closing the connection if it cannot |
| `KeepAlive.StallTakesItsTime` | src/bridge.ts:386-389 | a turn is given up only after the resolved seconds of silence |
| `KeepAlive.PlayTracks` | src/bridge.ts:845-869 | the counters of the connection are the silence and the wire activity read off the run alone; gated ticks do not count |
| `Merge.DeepEqualIsEquality` | src/config.ts:2281-2297 | the structural compare is equality of JSON values, whatever the key order |
| `Merge.UnchangedLiveYieldsDisk` | src/config.ts:2343-2357 | if live did not change, the merge is the disk value |
| `Merge.UnchangedDiskYieldsLive` | src/config.ts:2359-2359 | if the disk did not change, the merge is the live value |
| `Merge.LeafConflictYieldsLive` | src/config.ts:2361-2371 | a conflict other than between two records is won by live |
| `Merge.NoLostUpdate` | src/config.ts:2335-2372 | the merge is the baseline if and only if neither side changed |
| `Merge.MergeIsIdempotent` | src/config.ts:2335-2372 | merging the same disk state in again changes nothing |
| `Merge.MergeAlongPath` | src/config.ts:2316-2333 | merging commutes with walking down a path of records, whether the baseline has them or not |
| `Merge.OneSidedEditSurvives` | src/config.ts:2316-2333 | a place that only one side edited carries that side's value |
| `Merge.MergeExceptAt` | src/config.ts:2316-2333 | the record-level merge, key by key, with the skipped keys left alone |
| `ReconcileInPlace.ReconcileValue` | src/config.ts:2335-2372 | the in-place merge of one value computes the pure merge, returning the live object itself or a fresh tree, and touches nothing outside the live part |
| `ReconcileInPlace.ReconcileRecord` | src/config.ts:2316-2333 | the in-place loop over the keys, in any order, leaves the live tree holding the pure merge, still a tree, grown only by fresh objects |
| `ReconcileInPlace.ReconcileKey` | src/config.ts:2323-2332 | one round of the loop merges one key and leaves every other key's value alone |
| `ReconcileInPlace.SameAs` | src/config.ts:2281-2297 | `deepEqual` run on the live objects agrees with the compare of their values |
| `ReconcileInPlace.Clone` | src/config.ts:2312-2314 | `structuredClone` gives a fresh tree of the same value |
| `ReconcileInPlace.Put` | src/config.ts:2331-2331 | assigning a key keeps the object tree and changes exactly that key |
| `ReconcileInPlace.Delete` | src/config.ts:2330-2330 | deleting a key keeps the object tree and removes exactly that key |
| `LiveSave.SaveRebases` | src/config.ts:2443-2488 | after a successful save file, memory and baseline agree on every armed key, and the file is the live configuration apart from the address |
| `LiveSave.SaveLeaves` | src/config.ts:2443-2488 | key by key and for every fate, against the world before: memory keeps its own value, port and hostname included, but for a guarded key that only the file changed; the file gets the same but for a recorded address; it says exactly when the save throws, when the file is replaced, and when baselines and recorded address move |
| `LiveSave.SaveMeets` | src/config.ts:2443-2488 | so a successful save leaves just that |
| `LiveSave.SaveResolves` | src/config.ts:2450-2469 | a guarded key takes the file's value exactly if live did not change since the baseline |
| `LiveSave.EverySaveRebases` | src/config.ts:2443-2488 | after any run every successful save leaves file, memory and baselines in agreement, and what was armed stays armed |
| `LiveSave.SaveFailures` | src/config.ts:2113-2134 | a save throws exactly on a malformed file, an invalid candidate or a failing lock, read, write, generation bump or commit, where equal bytes are neither written nor bumped; and what each failure leaves in memory, file and baselines |
| `LiveSave.RetryIsTransparent` | src/config.ts:2443-2488 | whatever a failed save did, if nothing changes meanwhile the next successful one leaves exactly what it would have left without it |
| `LiveSave.QuietStepsStayClean` | src/config.ts:2443-2488 | an operation keeps a key clean if and only if it neither mutates it live nor is a save that adopts a hand edit of it and throws before rebasing |
| `LiveSave.HandEditSurvives` | src/config.ts:2429-2442 | over any run since a rebase in which the live side of a key stays quiet, the next successful save leaves on disk what the file said |
| `LiveSave.RebasesAreClean` | src/config.ts:2267-2270 | arming, every successful save and every reconcile without a pending edit of the key start such a run |
| `LiveSave.RefusedSaveLosesTheNextHandEdit` | src/config.ts:2451-2479 | without the proviso on saves that throw the claim is false: a run with a save refused on validation in which a second hand edit is overridden though nobody mutated the key live |
| `LiveSave.FailedSaveLosesTheNextHandEdit` | src/config.ts:2113-2125 | the same with a save that cannot be written |
| `LiveSave.BindingIsKept` | src/config.ts:2470-2479 | once recorded, the address stays recorded, and a save, whether it throws or not, leaves port and hostname of the file as they were |
| `LiveSave.ReconcileAt` | src/config.ts:2380-2420 | a reconcile, key by key: address live's, guarded keys live's only with a pending edit, all else merged; baselines and binding follow |
| `LiveConfigObject.LiveConfig.Arm` | src/config.ts:2267-2270 | both baselines become snapshots of the live tree |
| `LiveConfigObject.LiveConfig.Save` | src/config.ts:2443-2488 | on the mutable tree, the baselines and the file, what `LiveSave.Saved` says, whatever fails on the way |
| `LiveConfigObject.LiveConfig.Persist` | src/config.ts:2113-2125 | an invalid candidate or a failing read throws, equal bytes are left alone, a failing write throws and leaves the file, a failing bump throws after the file is replaced |
| `LiveConfigObject.LiveConfig.Reconcile` | src/config.ts:2380-2420 | on the mutable tree, what `LiveSave.Reconciled` says |
| `LiveConfigObject.LiveConfig.AdoptKey` | src/config.ts:2450-2469 | a hand edit is taken over exactly if the file changed and live did not |
| `LiveConfigObject.Snapshot` | src/config.ts:2312-2314 | the snapshot of a live tree is its value |
| `ConfigMutation.Store.MutatePersisted` | src/config.ts:2174-2227 | the loop with its rereads and rebases comes to `ConfigMutation.Whole` of what the reads see |
| `ConfigMutation.Store.Persist` | src/config.ts:2113-2125 | an invalid config throws and writes nothing, any other leaves its serialization in the file |
| `ConfigMutation.OutcomesMean` | src/config.ts:2174-2227 | `committed` means the file is the serialization of the callback's result on exactly the bytes of the last two reads; `unchanged` and `unavailable` leave the file alone and say why; at most eight reads and six callback runs |
| `ConfigMutation.ConflictMeansThreeRebases` | src/config.ts:2154-2225 | a conflict is reported if and only if three changes by other writers were seen and the file is still valid |
| `ConfigMutation.EndsWithFirstVerdict` | src/config.ts:2174-2227 | whoever else writes, the procedure ends with the first reads that decide: a file gone or broken, a third change, three reads in a row that agree, or a callback with nothing to change, call j of which is made on read j + 1; outcome, file and number of calls are what those reads say |
| `ConfigMutation.ThrowsExactly` | src/config.ts:2113-2117 | it throws if and only if the last two reads agree and parse, and the last callback run changed something to an invalid config |
| `ConfigMutation.PersistenceCommits` | src/config.ts:2183-2223 | a callback that always changes something, to a valid config, gets it written for the bytes last read if and only if they changed fewer than three times while it looked |
| `ConfigMutation.SettledFileIsPatched` | src/config.ts:2154-2225 | so it is written if the other writers stop before their third change |
| `ConfigMutation.UndisturbedRun` | src/config.ts:2183-2223 | with nobody interfering the outcome is decided by the callback's first two runs |
| `ConfigMutation.AttemptsMean` | src/config.ts:2185-2224 | the same, from any attempt on |
| `ConfigInit.AtMostOneCreates` | src/config.ts:1782-1857 | over every schedule, with failures and crashes anywhere, at most one process is told `created`, and the file is then its configuration |
| `ConfigInit.PreexistingFileIsKept` | src/config.ts:1717-1747 | a file that was there before is never touched, and nobody is told they created one |
| `ConfigInit.ExistingMeansValid` | src/config.ts:1696-1715 | every `existing` answer was given while a valid file was on disk |
| `ConfigInit.DurableExactly` | src/config.ts:1717-1747 | in every state of every run with a file on disk, the file stays whatever follows, if and only if its maker is nobody or neither writing nor removing it |
| `ConfigInit.ExistingIsNotDurable` | src/config.ts:1726-1746 | so `existing` may be told of a file that vanishes: a schedule of two processes from a missing file |
| `ConfigInit.CreatedStays` | src/config.ts:1717-1747 | once created the file stays, whatever follows |
| `ConfigInit.OnlyValidCandidates` | src/config.ts:1771-1775 | over every schedule only a valid candidate gets on disk or is told `created`; the process of an invalid one is told `candidate-invalid` and touches nothing, and nobody else is |
| `ConfigInit.InvalidIsForGood` | src/config.ts:1778-1850 | a process whose operations all succeed in time is told `existing-invalid` only of a file that stays invalid whatever follows, never of one that another process is still writing |
| `ConfigInit.AloneOnNothing` | src/config.ts:1771-1857 | a process alone, without failures, on a missing file is told `created` and its configuration is on disk |
| `ConfigInit.AloneOnSomething` | src/config.ts:1771-1857 | on a file that is there it answers `existing` or the exact refusal, and leaves the file alone |
| `ConfigInit.LockExcludes` | src/config.ts:1969-2022 | two processes are never both in a phase that holds the lock of the model |
| `ConfigInit.StepKeepsInv` | src/config.ts:1755-1857 | every operation of every process keeps the invariant tying phases, lock and file together |
| `PilotBudgetObject.Launch` | scripts/inference-pilot-budget.ts:90-98 | a controller exists exactly for a qualified manifest, and starts with nothing used |
| `PilotBudgetObject.Budget.Check` | scripts/inference-pilot-budget.ts:106-113 | stopped, expired, stale or changed identity refuses, and stops |
| `PilotBudgetObject.Budget.BeginGeneration` | scripts/inference-pilot-budget.ts:114-121 | what `PilotBudget.BeginOp` says |
| `PilotBudgetObject.Budget.Reserve` | scripts/inference-pilot-budget.ts:122-131 | admission of a send: what `PilotBudget.AdmitOp` says |
| `PilotBudgetObject.Budget.Receive` | scripts/inference-pilot-budget.ts:132-151 | the end of a send: what `PilotBudget.SettleOp` says |
| `PilotBudgetObject.Budget.EndGeneration` | scripts/inference-pilot-budget.ts:152-156 | what `PilotBudget.EndOp` says |
| `PilotBudget.BudgetIsSafe` | scripts/inference-pilot-budget.ts:104-163 | over every run: one send out at a time, no more sends than dispatches, three starts an arm, a reserve for every send and within the estimate up to the tolerance, and all that was paid within the reserve |
| `PilotBudget.CreditTestIsUnreachable` | scripts/inference-pilot-budget.ts:76-77 | below the dispatch bound the credit test of `dispatch` never fires |
| `PilotBudget.TranscriptTells` | scripts/inference-pilot-budget.ts:100-156 | after any run the registers are what the list of operations and answers says: which generation was begun last and not ended, whether a send is out, how many were admitted and since when, and whether anything was refused |
| `PilotBudget.AdmittedExactly` | scripts/inference-pilot-budget.ts:122-131 | after any run a send is admitted if and only if nothing was refused or stopped, it is before the deadline, within a day of the rates and of the same identity, its generation was begun last and not ended, no send is out, it is no retry and the dispatch bound leaves room |
| `PilotBudget.BegunExactly` | scripts/inference-pilot-budget.ts:114-121 | after any run a generation begins if and only if nothing was refused or stopped, clock, rates and identity are in order, none is open and the arm has had fewer than three; the bound on all starts adds nothing |
| `PilotBudget.SettledExactly` | scripts/inference-pilot-budget.ts:132-151 | after any run a send is taken back as paid if and only if it is out, nothing stopped, all is in order, and it completed with usage within the manifest's tokens; its cost is what is paid, else nothing |
| `PilotBudget.EndedExactly` | scripts/inference-pilot-budget.ts:152-156 | after any run a generation ends if and only if it is open, something was sent since it began and nothing is out |
| `PilotBudget.LatenessIsRefused` | scripts/inference-pilot-budget.ts:106-113 | a running budget stops for the deadline, the age of the rates or another identity exactly when they say so, in this order, and then begins, admits and pays nothing |
| `PilotBudget.StopIsAbsorbing` | scripts/inference-pilot-budget.ts:100-105 | after the first stop counters and reason never change, and nothing more is sent |
| `PilotBudget.RefusalEndsRun` | scripts/inference-pilot-budget.ts:106-156 | an operation that is refused, anywhere in a run, ends it: the budget is stopped, and counters and reason never change again |
| `PilotBudget.UsageWithinReserve` | scripts/inference-pilot-budget.ts:74-77 | a send within its token bounds costs no more than its reserve |
| `PilotRelay.RelayIsSafe` | scripts/inference-pilot-relay.ts:144-217 | over any interleaving of request handlers and control calls each generation is sent for at most once, and the budget keeps its bounds |
| `PilotRelay.ActKeepsOne` | scripts/inference-pilot-relay.ts:144-159 | every step keeps claims and sends of a generation at one in all |
| `PilotRelay.ForwardedExactly` | scripts/inference-pilot-relay.ts:144-217 | after any run a request is sent on if and only if its handler claimed, it is acceptable and the budget has room, order and quiet; any other end of a handler stops the budget |
| `PilotRelay.ClaimedExactly` | scripts/inference-pilot-relay.ts:144-159 | a request claims if and only if it is acceptable and the current generation is not claimed; any other stops the budget |
| `PilotRelay.RoundTripComesThrough` | scripts/inference-pilot-relay.ts:145-217 | from any rest with sends and starts left, a start, a request, its send, its answer and a finish in time come through to the next rest with one send more, paid |
| `Utf8.DecodeLosesNothing` | scripts/inference-pilot-relay.ts:67-74 | what was decoded, encoded again, and the held bytes are exactly the stream |
| `Utf8.EncodeDecodes` | scripts/inference-pilot-relay.ts:67-74 | every text is what its encoding decodes to |
| `Utf8.DecodeInPieces` | scripts/inference-pilot-relay.ts:74-84 | a stream decodes the same in one piece or two, a started character carried over |
| `ChunkedReader.TerminalResponse` | scripts/inference-pilot-relay.ts:74-117 | the chunk loop answers what the first faulty or decided chunk end says |
| `ChunkedReader.ChunkIndependence` | scripts/inference-pilot-relay.ts:74-117 | on a stream that decodes within the size bound the answer depends on the concatenation alone |
| `ChunkedReader.DecidedAtSomeChunkEnd` | scripts/inference-pilot-relay.ts:74-117 | on any stream the answer is a decision if and only if some chunk end falls after the decisive event and before the first fault, and it is what the bytes up to any such chunk end deserve |
| `ChunkedReader.LateFaultDependsOnChunks` | scripts/inference-pilot-relay.ts:79-84 | a decided stream with a later fault has two answers, depending on the chunks |
| `ChunkedReader.AcceptsShortestPrefix` | scripts/inference-pilot-relay.ts:86-109 | the bytes returned are the shortest accepted prefix: whole characters, accepted themselves with the same usage, nothing shorter decided |
| `SseFraming.ReadTerminal` | scripts/inference-pilot-relay.ts:74-117 | the same loop for UTF-8, the blank-line delimiter and events judged by their data, with no assumption left |
| `SseFraming.SseIsLawful` | scripts/inference-pilot-relay.ts:86-93 | UTF-8 and the delimiter `\r?\n\r?\n` obey the laws that hide chunk boundaries |
| `SseFraming.FindIsStable` | scripts/inference-pilot-relay.ts:86-86 | a delimiter that is all there stays the first one whatever follows, even cut inside `\r\n` |
| `SseEvents.FirstEventExactly` | scripts/inference-pilot-relay.ts:86-88 | the first event ends at the least index where LF LF, LF CR LF, CR LF LF or CR LF CR LF starts, and the next begins right behind that string; there is none exactly if none of them occurs |
| `SseEvents.EventsAreTaken` | scripts/inference-pilot-relay.ts:86-108 | so the stream is judged event by event, each the text up to the first such string |
| `SseEvents.NothingIsTaken` | scripts/inference-pilot-relay.ts:86-86 | without one nothing is judged |
| `SseEvents.LinesExactly` | scripts/inference-pilot-relay.ts:91-91 | splitting gives back any lines, whichever of the two line ends joined them |
| `SseEvents.HasLines` | scripts/inference-pilot-relay.ts:91-91 | and every text is such a join |
| `SseEvents.DataExactly` | scripts/inference-pilot-relay.ts:91-91 | the data of an event is what follows `data:` in the lines that start with it, up to the first character that is not white space dropped, joined by line feeds |
| `SseEvents.EventIsJudged` | scripts/inference-pilot-relay.ts:90-94 | an event of any lines: refused with a byte-order mark, skipped without data or with `[DONE]`, else judged by exactly that data |
| `SseFraming.LateByteDependsOnChunks` | scripts/inference-pilot-relay.ts:79-84 | a decided event stream with the byte 0xFF behind it: accepted or refused as before in its own chunk, undecodable in one chunk |
| `SseFraming.LateByteExample` | scripts/inference-pilot-relay.ts:79-84 | the same for one concrete completed event |
| `EventScan.ScanIsStable` | scripts/inference-pilot-relay.ts:86-108 | what is decided on a prefix stays decided, and scanning goes on where it stopped |
| `Alignment.Advance` | scripts/macos-rss-retention-harness.ts:1002-1010 | the inner loop stops at the last nearest index of all, though it never moves back |
| `Alignment.Align` | scripts/macos-rss-retention-harness.ts:997-1019 | the one-pass check gives the verdict of a brute-force search, the run of bad samples included |
| `TaskXml.EscapeIsEach` | src/service.ts:1759-1766 | the five replacements come to one character-wise map |
| `TaskXml.EscapedHasNoMarkup` | src/service.ts:1759-1766 | no raw `<`, `>` or quote is left |
| `TaskXml.DecodeEscaped` | src/service.ts:1966-1974 | the single-pass decoder gives back every value |
| `TaskXml.EscapeIsInjective` | src/service.ts:1759-1766 | two values are escaped alike only if they are the same |
| `TaskXml.DecodingTwiceLosesValues` | src/service.ts:1961-1965 | a second pass would take an escaped entity for the character it names |
| `Effort.Sanitize` | src/reasoning-effort.ts:42-52 | exactly the listed tiers of the ladder, in ladder order, without duplicates |
| `Effort.Clamp` | src/reasoning-effort.ts:73-90 | the highest supported tier not above the request, else the lowest supported one; none exactly for an unnamed tier or an empty list |
| `Effort.ClampIsMonotone` | src/reasoning-effort.ts:73-90 | a higher request never gets a lower tier |
| `Effort.MapEffort` | src/reasoning-effort.ts:100-120 | alias of the request first, else the tier that serves it, by its alias if it has one; without an alias map never `ultra` |
| `Effort.SubLaddersAreDetermined` | src/reasoning-effort.ts:42-52 | a sanitized list is determined by which tiers it holds |

## Left out

- Byte accounting of the translator budget: any emission, read, handler or closing may fail. After an overflow inside
  a handler the rest of that handler, which runs on cleared registers and a closed connection, is not modelled.
- What a handler or closings that throw leave in the registers is any state whose frames are some of theirs; `mid` and
  `left` stand for it.
- Refinement.StreamRefinesBatch: restricted to visible reasoning, no compaction, no redacted or Kiro blocks, non-empty
  deltas and call ids, searches directly paired, no empty stop reason and no budget errors, no namespaced tool-search
  tools and schemas that both lookups find alike; `Divergence` has a run for each. It compares with the batch on the events the stream consumed, so events after a terminal are allowed. Outside the
  restrictions `Reasonings`, `Answers`, `Calls` and `BatchAnswers` say what each side carries.
- Reasonings.ReasoningIsTold: not for compaction turns, whose stream drops all reasoning (`DenseRuns.CompactionFrames`); neither are
  `Answers` and `Calls`.
- WireDone.DoneFollows: an overflow in emitting `[DONE]` itself is ignored by the code and loses it, so runs with an overflowing
  emission are left out of it (`WireProtocol.TerminalProtocol` covers them).
- PilotRelay.RoundTripComesThrough: one handler at a time; `ForwardedExactly` is for any interleaving.
- DenseIndices.IndicesCountItems: for runs whose steps do not overlap an open item; `DenseStep` shows the guard is exact.
- TurnEnds.ItemsCompletedExactly: compaction turns and turns ended by a budget error are not ordinary and left out of it.
- The helpers and event handlers of `Bridge` that have no row are proved the same way as those that have one.
- Usage, cost and error classification payloads, the first-output and completed-response callbacks, the replay cache, watchdogs and logging of the bridge.
- Reasoning and compaction envelopes, argument coercion and V2 plaintext fields are functions of their inputs, not encodings.
- Live arrays hold plain values: aliasing into the elements of an array of the configuration is not modelled, nor are explicit `undefined` values and non-plain objects.
- LiveSave.SaveRebases: a file is the record its reader gets from it; defaults that the schema fills in on reading are not modelled.
- Locking of the live save and of the mutation loop (one writer holds the lock, or a save does not get it), the values of
  generation counters, file permissions and symlink checks.
- ConfigInit.LockExcludes: the lock is a variable of the model; the database transaction behind it is not modelled.
- ConfigMutation.OutcomesMean: other writers act between any two reads, not between the last check and the write, as the source says of itself; a callback that throws is not modelled.
- ConfigInit.AtMostOneCreates: deleting processes other than a failing creator are not modelled; the lock is a mutual exclusion that may fail to be taken.
- Credits are exact reals, without floating-point rounding; abort signals of the pilot are the absorbing stop.
- Request validation of the relay (headers, body shape, tools) is the one flag `acceptable` of a step.
- Code points stand for the UTF-16 units of the reader's pending text; abort of a read is not modelled.
- Effort.MapEffort: the lookup of per-model records by exact name, family and folded case is done before.
- The element lookup around `taskXmlDecodeEntities`, and the regular-expression health checks.
- Service installation, process probing, GUI, packaging and release scripts, provider registry and router.
