# Agent runs, session protocol and model catalog

A Dafny model of five parts of the pi agent repository, with proofs about them:

- **the agent loop** (`AgentTypes`, `AgentQueue`, `AgentTrace`, `AgentState`, `AgentTools`, `AgentOutcomes`, `AgentLoop`,
  `AgentRuns`): the nested loop that injects queued messages, streams a reply and runs its tool calls, and the stateful
  `Agent` that folds the loop's events into its own transcript;
- **the session protocol** (`ClientConnection`, `ClientMessages`, `ClientRequests`, `ClientLeases`, `ClientLeaseLaws`,
  `ClientState`, `Server`): connection attempts, request correlation, session leases, snapshot stores, server stages and
  the revisioned broadcast;
- **framing** (`Wire`, `Framing`, `Codec`): the incremental length-prefixed decoder and the message decoder over it;
- **the model catalog** (`Catalog`, `CatalogRefresh`): the overlay of dynamic models and the publication protocol of
  concurrent refreshes;
- **smaller pieces** (`ProtocolValues`, `Proxy`): depth-first walks over cyclic object graphs, and the rebuilding of a
  message from stripped delta events.

`Basics` holds what all of them share.

## How it is modelled

Code that changes objects in place is written as classes and methods with loops: `FrameDecoder`, `MessageDecoder`,
`PendingMessageQueue`, `Agent`, `LoopRun` (the variables of one run), the tool batches, `RefreshMaps`, `Store`,
`Connection`, `SnapshotPublisher`, `Requests`, `LeaseMaps`, and the walks that share a mutable set of ancestors. Each
method is proved against a function of the old state or against the property it promises.

Code that interleaves is modelled as a transition system whose steps are the stretches between two `await`s. The
synchronous stretches of the same code also appear as methods whose contracts are the transition functions. What the
transitions come to is stated beside them over the events and the state before, in both directions: what happens exactly
when (`…Exactly`), and what a whole run has then done.

What the agent loop awaits (reply streams, tools, hooks, aborts, messages the user queues meanwhile) is a script given to
the run, and every theorem is about all scripts. Concurrent tools are threads scheduled by an arbitrary list of moves. A
script that stops early suspends the run; the contracts say what then still holds. A run keeps a ghost log of its events
and of its other interactions. One fold over the log (`AgentTrace.Read`) carries what the log says so far: the phase of
the turns, the message brackets, deliveries from the queues, the Agent's own state, what the model should be given, and a
record of what the run was told. Lemmas connect each part of this reading to a declarative statement about the log.

Dafny's equality on values stands for JavaScript's identity only where the identity is an explicit number (lease tokens,
controllers, transports, references).

## Where the code differs from what one might expect

Each of these is a lemma about the model as the code is written.

- `packages/client/src/connection.ts:156-159`: the loop over the messages of one chunk tests only whether the connection
  is disconnected, not whether the attempt is still the same. When a callback disconnects and reconnects, the old chunk's
  next message ends the new attempt (`ClientConnection.StaleChunkEndsNewAttempt`); this is the only way an old attempt can
  touch a newer one (`ClientConnection.OldAttemptIsInertExactly`).
- `packages/client/src/client.ts:395-400`: a release does not look at the generation its token was taken in. A late release
  takes away a newer token's count (`ClientLeases.UnguardedReleaseBreaksIt`); it is harmless exactly when no newer token
  is outstanding (`ClientLeases.StaleReleaseExactly`).
- `packages/client/src/client.ts:209-211`: a handle takes its generation when it is created, not when its token was
  reserved. If the session was invalidated in between, the handle has no count, so a disconnect does not end it and it is
  active again when the session is acquired after a reconnect (`ClientLeases.UncountedHandleSurvivesDisconnect`).
- `packages/client/src/client.ts:237-241` with `209-211`: releasing such a handle sends a detach request while another
  handle of the session is active and its token outstanding, because the count it looks at is the other handle's
  (`ClientLeases.DetachBesideActiveHandle`); in runs without a late release, a detach is sent for the last outstanding
  token exactly when the releasing handle's token is of the current generation or nothing is outstanding
  (`ClientLeases.DetachInEveryGuardedRun`).
- `packages/client/src/state.ts:49-57`: restoring a forgotten snapshot is safe because attaches are single-flight; two
  overlapping attaches would break the attached set (`ClientState.OverlappingAttachesBreakIt`).
- `packages/server/src/snapshots.ts:55-57`: the revision is bumped before the service is asked, so a failed service call
  leaves ready clients behind that revision (`Server.FailedBroadcastLeavesBehind`, `Server.FailedBroadcastHappens`).
- `packages/server/src/server.ts:209-218`: a request that arrives at a ready connection can overtake one that still waits
  behind the handshake (`Server.OvertakingHappens`).
- `packages/agent/src/agent-loop.ts:317-322`: every `start` of a stream pushes a partial message, and only the last one is
  replaced. A stream with two leaves the first in the context (`AgentRuns.SecondStartIsLeftBehind`); the transcripts agree
  exactly when no stream has had two since the context was last replaced (`AgentRuns.TranscriptAgreement`).
- `packages/agent/src/agent-loop.ts:257-266`: a steering message that is queued after the last poll for steering, while the
  run looks for follow-ups, stays in its queue when the run ends (the last condition of `AgentLoop.LoopRun.RunLoop`).
- `packages/agent/src/proxy.ts:322-343`: the text of a tool call's arguments is deleted when the call ends, so a delta that
  comes after it is appended to the text "undefined" (`Proxy.DeltaReconstruction`).

## Model

| member | source | states |
|---|---|---|
| AgentQueue.PendingMessageQueue.Enqueue | packages/agent/src/agent.ts:133-135 | an enqueued message goes to the end, and what was ever enqueued stays what was drained followed by what is queued |
| AgentQueue.PendingMessageQueue.HasItems | packages/agent/src/agent.ts:137-139 | true exactly when something is queued |
| AgentQueue.PendingMessageQueue.Drain | packages/agent/src/agent.ts:141-154 | draining takes from the front: everything in one mode, at most one message in the other, nothing exactly when the queue is empty, and loses nothing |
| AgentQueue.PendingMessageQueue.Clear | packages/agent/src/agent.ts:156-158 | clearing drops what is queued and does not count it as drained |
| AgentState.Agent.ProcessEvents | packages/agent/src/agent.ts:544-582 | one event changes the messages, the streaming message, the pending tool calls and the error as the fold `Apply` of the trace says |
| AgentState.Sink.Emit | packages/agent/src/agent.ts:544-582 | at every moment of a run the Agent's state is the fold of the events emitted so far, and the reading of the log takes the step the event makes |
| AgentState.Sink.EmitMessage | packages/agent/src/agent-loop.ts:112-115 | a whole message opens and closes its bracket and extends the Agent's transcript and what the model should be given by that message; nothing else of the reading changes but a delivery that was due |
| AgentTypes.ToolCallsInOrder | packages/agent/src/agent-loop.ts:416 | the calls of a message are those of its parts, in order |
| AgentTrace.OverIsGrammatical | packages/agent/src/agent-loop.ts:164-273 | a log whose turns read to the end has the event grammar agent_start, one or more turns, one agent_end last |
| AgentTrace.PhaseReadsTurns | packages/agent/src/agent-loop.ts:164-273 | at every moment the phase of the turns says how the events so far divide into finished turns and an unfinished one |
| AgentTrace.NothingAfterHalt | packages/agent/src/agent-loop.ts:215-219 | after an error or aborted reply, or a true shouldStopAfterTurn, a log whose turns are not wrong has no model call, no injection and no turn_start |
| AgentTrace.BracketsNeverOverlap | packages/agent/src/agent-loop.ts:312-369 | where the brackets of a log end shut, every message_start is followed by updates only up to its message_end |
| AgentTrace.CallPhaseReadsProjection | packages/agent/src/agent-loop.ts:431-485 | what the call scanner says of a call is what the call's own events are: a start, these updates in order, an end with this outcome |
| AgentTrace.DeliveredAtOnce | packages/agent/src/agent-loop.ts:201-209 | in a log that has lost no delivery, a message taken from a queue is announced and ended at once, unchanged |
| AgentTrace.PeakBoundsEveryTurn | packages/agent/src/agent-loop.ts:191-196 | the recorded peak bounds the number of queued messages injected in every turn |
| AgentTrace.CleanTurnEnds | packages/agent/src/agent-loop.ts:431-552 | in a log read as clean, no tool call is pending at any turn_end |
| AgentTrace.ModelIsGiven | packages/agent/src/agent-loop.ts:287-307 | every model call of a sound log with no partial left in the context starts from exactly what the log says the model should be given |
| AgentTrace.GivenIsTranscript | packages/agent/src/agent-loop.ts:96-144 | without a replaced context, what the model should be given is the Agent's own transcript |
| AgentTrace.GivenSinceReplacement | packages/agent/src/agent-loop.ts:176-209 | after a replacement, it is the replacement followed by every message of the transcript since |
| AgentTrace.ToldReadsLog | packages/agent/src/agent-loop.ts:201-250 | what the run was told is the injected messages and the messages of the ended turns, in the order of the log |
| AgentTrace.RecordReadsLog | packages/agent/src/agent-loop.ts:176-250 | the record holds the log's injections from each queue, its turn_end entries and its replacements, each in order |
| AgentTrace.StreamingReadsLog | packages/agent/src/agent.ts:546-581 | the Agent is streaming a message exactly while one has been shown and not ended, and then the newest one |
| AgentTrace.PendingReadsLog | packages/agent/src/agent.ts:559-572 | a tool call is pending exactly if one with its id has started and none has ended since |
| AgentTrace.ErrorReadsEndings | packages/agent/src/agent.ts:573-578 | the Agent's error is that of the last turn_end whose reply carries one |
| AgentTrace.CourseReadsTurn | packages/agent/src/agent-loop.ts:175-241 | the course of a turn is what its entries say: whether a message was injected, and whether a tool call ended without asking to stop |
| AgentTools.FailToolCallsFromTruncatedMessage | packages/agent/src/agent-loop.ts:379-404 | every call of a truncated message runs start, end with the truncation error, and gets its result in order; the batch never terminates the run |
| AgentTools.RunCall | packages/agent/src/agent-loop.ts:668-756 | one prepared call reports exactly the updates given before it settles and comes to what execution and the after hook make of it; updates reported after that are dropped; a call settled by preparation runs nothing |
| AgentTools.EndCall | packages/agent/src/agent-loop.ts:765-794 | the result message of a call follows its end, carries that end's outcome, and extends the transcript |
| AgentTools.RunNext | packages/agent/src/agent-loop.ts:442-479 | one call of a sequential batch, prepared with the signal as it is then |
| AgentTools.RunsInOrder | packages/agent/src/agent-loop.ts:442-479 | extending a sequential batch by the outcome its script gives keeps the account of what ran and of the signal |
| AgentTools.ExecuteToolCallsSequential | packages/agent/src/agent-loop.ts:431-485 | the calls reached are exactly those up to the first after which the signal is aborted; each runs start, updates, end; results are those ends' outcomes in call order; no call stays pending; terminate exactly when all outcomes ask for it |
| AgentTools.LaunchAll | packages/agent/src/agent-loop.ts:497-536 | preparation reaches exactly the calls up to the first after which the signal is aborted, and settles exactly those it rejects |
| AgentTools.Step | packages/agent/src/agent-loop.ts:668-709 | one step of one concurrent call moves that call only; an update after the tool has settled is dropped |
| AgentTools.RunConcurrently | packages/agent/src/agent-loop.ts:538-540 | under any schedule each call ends where its own moves take it |
| AgentTools.InterleavingDoesNotMatter | packages/agent/src/agent-loop.ts:520-532 | a call's outcome is a function of its own moves, whatever the moves of the others |
| AgentTools.SchedulesAgree | packages/agent/src/agent-loop.ts:538-540 | two schedules in which each call takes the same steps give the same updates and outcomes for every call |
| AgentTools.EmitResults | packages/agent/src/agent-loop.ts:541-546 | results of a concurrent batch are emitted in source order |
| AgentTools.ExecuteToolCallsParallel | packages/agent/src/agent-loop.ts:487-552 | for every interleaving: each reached call runs start, updates, end; results are in source order, form a prefix of the calls, and all of them unless the signal is aborted; no call stays pending; terminate exactly when all outcomes ask for it |
| AgentTools.ShouldTerminateToolBatch | packages/agent/src/agent-loop.ts:580-582 | true exactly for a nonempty batch all of whose outcomes ask to terminate |
| AgentTools.HasSequentialToolCall | packages/agent/src/agent-loop.ts:417-419 | true exactly when some call names a known tool that must run alone |
| AgentTools.ExecuteToolCalls | packages/agent/src/agent-loop.ts:406-424 | the kind of batch is chosen by truncation, configuration and the tools, and each kind comes to what its own rule says |
| AgentOutcomes.SequentialCallIsDecided | packages/agent/src/agent-loop.ts:442-479 | a reached call of a sequential batch whose tool is missing, whose arguments are rejected, whose before hook throws or blocks, or that finds the signal aborted, reports no update and ends with that error, asking to stop only for a block that asks; every other one reports its updates and comes to what execution and after hook make of it, field by field |
| AgentOutcomes.ConcurrentCallIsDecided | packages/agent/src/agent-loop.ts:497-540 | the same for concurrent batches; a call that passes reports the updates before its first settling and comes to what that and its first finish make of it |
| AgentOutcomes.RejectionIgnoresExecution | packages/agent/src/agent-loop.ts:598-666 | what a rejected call comes to depends on nothing its tool or the after hook would have done |
| AgentOutcomes.RejectedCallOnlyEnds | packages/agent/src/agent-loop.ts:450-479 | a rejected call of a finished batch starts and ends with nothing in between, and is answered by an error result |
| AgentOutcomes.ResultsCarryOutcomes | packages/agent/src/agent-loop.ts:775-789 | a result carries its call's id and name, and the content and error flag of the outcome |
| AgentOutcomes.ReachesUpToAbort | packages/agent/src/agent-loop.ts:476-478 | a batch stops after the first call after which the signal is aborted, and otherwise goes through all calls |
| AgentLoop.NothingStaleExactly | packages/agent/src/agent-loop.ts:312-369 | a stream leaves nothing but its final message exactly when it has at most one `start` before its end |
| AgentLoop.LoopRun.Begin | packages/agent/src/agent-loop.ts:110-115 | after agent_start, turn_start and the prompts, the three transcripts agree and nothing has been injected |
| AgentLoop.LoopRun.GetSteeringMessages | packages/agent/src/agent.ts:475-481 | a poll for steering takes what it returns from the queue and holds it as pending; the poll that is to be skipped takes nothing |
| AgentLoop.LoopRun.GetFollowUpMessages | packages/agent/src/agent.ts:482 | a poll for follow-ups holds what it takes as pending, and takes nothing only when the queue is empty |
| AgentLoop.LoopRun.Receive | packages/agent/src/agent.ts:282-290 | messages queued while the run waits are appended to their queue in order, and change nothing else of the run |
| AgentLoop.LoopRun.PrepareNextTurn | packages/agent/src/agent-loop.ts:176-190 | the context becomes exactly what the hook returns, or stays when it returns none; a replacement is recorded and leaves no partial behind; the Agent's messages and newMessages stay |
| AgentLoop.LoopRun.OpenTurn | packages/agent/src/agent-loop.ts:176-198 | the context is the one prepareNextTurn leaves; steering is polled a second time only when nothing is pending, so one-at-a-time queues deliver at most one message, and nothing is injected only when nothing is queued |
| AgentLoop.LoopRun.Inject | packages/agent/src/agent-loop.ts:201-209 | all pending messages are injected in order and nothing stays pending; the transcripts still agree |
| AgentLoop.LoopRun.StreamOne | packages/agent/src/agent-loop.ts:315-342 | a `start` adds a partial message to the context, a content event replaces the newest one, and the Agent's streaming message is that one |
| AgentLoop.LoopRun.StreamEvents | packages/agent/src/agent-loop.ts:315-359 | the loop over the stream handles exactly the events before its first end event |
| AgentLoop.LoopRun.FinishStream | packages/agent/src/agent-loop.ts:361-369 | the final message takes the place of the newest partial, or opens its own bracket when no `start` came |
| AgentLoop.LoopRun.StreamAssistantResponse | packages/agent/src/agent-loop.ts:279-370 | the reply's final message ends the stream's bracket and the transcript; the context gains it after the stale partials; the model was given the context as it was |
| AgentLoop.LoopRun.RunToolCalls | packages/agent/src/agent-loop.ts:221-241 | the batch's results answer a prefix of the reply's calls, all of them unless truncated or aborted by the stated rules, and are appended to context and newMessages; a batch that cannot finish changes no transcript |
| AgentLoop.LoopRun.AppendResults | packages/agent/src/agent-loop.ts:237-240 | context and newMessages gain the results in order, after which all transcripts agree again |
| AgentLoop.LoopRun.AnswerToolCalls | packages/agent/src/agent-loop.ts:221-241 | a reply without tool calls asks for no further turn; one with calls asks for it exactly when not all outcomes terminate |
| AgentLoop.LoopRun.EmitTurnEnd | packages/agent/src/agent-loop.ts:215-219 | turn_end carries the turn's reply and results, which thereby enter the record |
| AgentLoop.LoopRun.RunTurn | packages/agent/src/agent-loop.ts:200-250 | a turn adds to newMessages exactly the pending messages, the reply and the results, which are what its turn_end records and answer the reply's calls; it halts exactly on an error or aborted reply, and asks for more exactly when it ran calls that do not all terminate |
| AgentLoop.LoopRun.ShouldStopAfterTurn | packages/agent/src/agent-loop.ts:252-255 | after a true answer the run may only end |
| AgentLoop.LoopRun.FinishLoop | packages/agent/src/agent-loop.ts:272 | the run ends between turns, after at least one, with agent_end carrying newMessages |
| AgentLoop.LoopRun.Iterate | packages/agent/src/agent-loop.ts:175-258 | one pass of the inner loop, the first without preparation, with the answer of shouldStopAfterTurn, and the step it makes in the account of the turns |
| AgentLoop.LoopRun.RunInner | packages/agent/src/agent-loop.ts:175-258 | the inner loop goes on exactly while the last turn wants a reply to its tool results or something is pending: it returns after at least one turn, with nothing pending, nothing left in the steering queue and no reply wanted, or ends or suspends the run with everything accounted for |
| AgentLoop.LoopRun.RunLoop | packages/agent/src/agent-loop.ts:156-273 | for all scripts: the run ends with a single agent_end carrying newMessages after turns none of which had to end it earlier; it ends by itself only when the last turn wants no reply, the poll for steering after it found nothing and no follow-up is queued; every turn after the first was called for by the one before or by a queued message; the first injects what the first poll took; a suspended run holds what it has taken |
| AgentLoop.ReplacedExactly | packages/agent/src/agent-loop.ts:176-179 | no context was returned in the first turns exactly when prepareNextTurn returned none in any of them; it is not asked before the first |
| AgentLoop.LeftExactly | packages/agent/src/agent-loop.ts:312-369 | the context holds no partial exactly when no stream was restarted since it was last replaced |
| AgentLoop.StaleExactly | packages/agent/src/agent-loop.ts:312-369 | a message bracket was broken in the first turns exactly when one of their streams had a second `start` before its end |
| AgentLoop.LastReplacedIsLast | packages/agent/src/agent-loop.ts:176-179 | no later turn replaced the context again |
| AgentLoop.HistoryTallies | packages/agent/src/agent-loop.ts:164-273 | the steps of the turns add up to the replacements of all hooks, the partials left since the last of them, and one ending per turn |
| AgentLoop.EveryEndingRecords | packages/agent/src/agent-loop.ts:164-273 | each ending of a run records its turn: the reply, results that answer its calls as their scripts say, and whether they want a reply; and each turn after the first was called for |
| AgentRuns.RunAgentLoop | packages/agent/src/agent-loop.ts:96-144 | for every run, also a suspended one: the Agent's messages become those before followed by newMessages; what left each queue is what the run injected, then what it still holds, with no queue cleared; with one-at-a-time queues at most one message is injected per turn; no tool call is pending at any turn_end; every model call starts from what the log says the model should be given, unless a partial was left in the context; the first poll takes nothing exactly if it is to be skipped or nothing is queued by then |
| AgentRuns.StartRun | packages/agent/src/agent.ts:491-500 | a run starts with the transcript as it is, no error and nothing streaming |
| AgentRuns.FinishRun | packages/agent/src/agent.ts:529-535 | afterwards nothing is streaming or pending and the transcript and error stay |
| AgentRuns.RunWithLifecycle | packages/agent/src/agent.ts:409-535 | a finished run leaves the Agent idle, with nothing streaming or pending, and with its transcript and queues accounted for |
| AgentRuns.Prompt | packages/agent/src/agent.ts:350-358 | refused exactly while a run is active, and then nothing changes |
| AgentRuns.Continue | packages/agent/src/agent.ts:361-388 | refused exactly while a run is active, with an empty transcript, or after an assistant message with both queues empty; what it takes from a queue becomes the prompts of the run, so nothing taken is lost; after steering messages the first poll is skipped |
| AgentRuns.DrainForPrompts | packages/agent/src/agent.ts:370-386 | steering is tried first, follow-ups only when no steering is queued, and the run skips its first poll exactly in the first case |
| AgentRuns.TraceOfARun | packages/agent/src/agent-loop.ts:164-273 | every run that ended has the event grammar, no model call after a halting reply or answer, and every injected message delivered at once |
| AgentRuns.WholeRunIsRecorded | packages/agent/src/agent-loop.ts:164-273 | newMessages of a run that ended are the prompts, then turn by turn the injected messages and that turn's reply and results; the k-th turn_end carries the k-th reply and results that answer its calls, all of them unless the signal was aborted |
| AgentRuns.EveryTurnIsCalledFor | packages/agent/src/agent-loop.ts:171-269 | in a run that ended, every turn but the first follows one with a tool call that did not ask to stop, or begins with an injected message; and a run that need not have ended ends after a turn without such a call |
| AgentRuns.CallsDecideWhetherToGoOn | packages/agent/src/agent-loop.ts:221-241 | over what the calls came to: a turn followed by another with nothing injected had calls not all of which ask to stop; the last turn of a run that need not have ended had none, or all ask to stop |
| AgentRuns.EndingInLog | packages/agent/src/agent-loop.ts:175-250 | each ending is a turn_end of the log, and its course is what the entries of that turn say |
| AgentRuns.CallsOfATurnAreDecided | packages/agent/src/agent-loop.ts:406-424 | the calls of every recorded turn are decided by their scripts as stated for batches |
| AgentRuns.FirstTurnTakesFirstPoll | packages/agent/src/agent-loop.ts:166-168 | the first turn of a run injects exactly what the poll before it took |
| AgentRuns.ErrorOfARun | packages/agent/src/agent.ts:573-578 | after a run the Agent's error is that of the last reply that carries one, and none if no reply does |
| AgentRuns.TranscriptAgreement | packages/agent/src/agent-loop.ts:312-369 | the context of a run that ended is what the model should be given if and only if no stream had a second `start` since the context was last replaced; if it never was, that is the starting transcript followed by newMessages; the message brackets are well formed if and only if no stream had a second `start` at all |
| AgentRuns.ContextAfterReplacement | packages/agent/src/agent-loop.ts:176-209 | otherwise, what the model should be given is the last replacement followed by everything newMessages gained since |
| AgentRuns.LastReplacementOfARun | packages/agent/src/agent-loop.ts:176-179 | the last replacement in the log is what the hook returned in the last turn that replaced the context |
| AgentRuns.SecondStartIsLeftBehind | packages/agent/src/agent-loop.ts:317-322 | a concrete stream that leaves its first partial message in the context |
| Wire.HeaderRoundTrip | packages/protocol/src/framing.ts:31-36 | the four big-endian bytes of a length are read back as that length |
| Wire.HeaderUnique | packages/protocol/src/framing.ts:45 | every four bytes are the header of the length they denote |
| Wire.SplitConserves | packages/protocol/src/framing.ts:73-144 | the frames found and the unfinished rest are the whole input, no frame is over the limit, and the rest holds no complete frame |
| Wire.SplitAppend | packages/protocol/src/framing.ts:73-144 | reading on from the rest of a prefix gives what reading the whole gives |
| Wire.ChunksAgreeWithSplit | packages/protocol/src/framing.ts:73-144 | for any chunks, the decoder's state and output are those of the one-line specification on the concatenation; a failed decoder has delivered a prefix |
| Wire.ChunkIndependence | packages/protocol/src/framing.ts:73-153 | whether a decoder ends failed, mid-frame or clean depends only on the concatenated bytes, and so do the frames of one that has not failed |
| Wire.RefusesExactly | packages/protocol/src/framing.ts:73-164 | a decoder that has ended or failed refuses everything and stays so; an open one fails exactly with a frame over the limit or an end inside a frame |
| Wire.OverLimitFails | packages/protocol/src/framing.ts:88-93 | whatever follows frames within the limit, a header over it fails the decoder there |
| Wire.FailureIsOverLimit | packages/protocol/src/framing.ts:88-93 | and a decoder fails on its input in no other way |
| Wire.StreamRoundTrip | packages/protocol/src/framing.ts:28-153 | any chunking of encoded payloads within the limit is decoded to those payloads, and the end is clean |
| Wire.CompleteFrameIffEncoded | packages/protocol/src/framing.ts:42-53 | the check accepts exactly the encodings of payloads within the limit |
| Wire.CompleteFrameIffDecoded | packages/protocol/src/framing.ts:42-53 | the check accepts exactly what a fresh decoder turns into one frame with a clean end |
| Framing.EncodeFrame | packages/protocol/src/framing.ts:28-39 | a fresh array holding the header and the payload; refused exactly above 32 bits |
| Framing.AssertCompleteFrame | packages/protocol/src/framing.ts:42-53 | the array check decides what `CheckCompleteFrame` decides about its bytes |
| Framing.FrameDecoder.Push | packages/protocol/src/framing.ts:73-144 | the block-buffered decoder refines the one-line specification for every chunk, and never hands out an array it keeps or was given |
| Framing.FrameDecoder.HeaderRound | packages/protocol/src/framing.ts:81-103 | header bytes are consumed up to a complete header, which opens a payload, is an empty frame, or fails the decoder; the split of buffered and unread bytes stays the same |
| Framing.FrameDecoder.ReadPayload | packages/protocol/src/framing.ts:107-123 | the payload part of a round leaves buffered and unread bytes together what they were, and stops only with the payload complete or the chunk used up |
| Framing.FrameDecoder.FillBlocks | packages/protocol/src/framing.ts:107-123 | the block-filling loop stops only with the payload complete or the chunk used up, and no byte is lost between payload and chunk |
| Framing.FrameDecoder.OpenBlock | packages/protocol/src/framing.ts:109-114 | a new block is opened when the last is full, and the payload so far stays the same |
| Framing.FrameDecoder.AppendToBlock | packages/protocol/src/framing.ts:115-122 | the payload so far grows by exactly the bytes consumed |
| Framing.FrameDecoder.TakeFrame | packages/protocol/src/framing.ts:124-141 | the frame handed out holds the whole payload, and the decoder keeps nothing of it |
| Framing.FrameDecoder.End | packages/protocol/src/framing.ts:146-153 | ending succeeds exactly when nothing is buffered, and each refusal is the specified one |
| Framing.FrameDecoder.Fail | packages/protocol/src/framing.ts:155-164 | a failed decoder keeps no block, no counted byte, no header and no expected length |
| Framing.JoinBlocks | packages/protocol/src/framing.ts:128-134 | the joined payload is the concatenation of the blocks |
| Codec.MessageDecoder.Push | packages/protocol/src/codec.ts:102-115 | one chunk gives all its messages or latches the decoder; after that nothing is decoded |
| Codec.MessageDecoder.End | packages/protocol/src/codec.ts:117-125 | the end of the stream fails exactly for a latched decoder or unfinished framing |
| Codec.MessagesAgreeWithSplit | packages/protocol/src/codec.ts:88-126 | for any chunks the decoder ends latched exactly when framing or some message is bad, and otherwise has delivered the messages of the concatenation |
| Codec.MessageChunkIndependence | packages/protocol/src/codec.ts:88-126 | the final state, and the messages when it is alive, depend only on the concatenated bytes |
| Codec.MessageRoundTrip | packages/protocol/src/codec.ts:60-76 | encoded messages within the limit are decoded to themselves under any chunking, with a clean end |
| Catalog.FindIndex | packages/ai/src/models.ts:769 | the first position with the id, or none exactly when the id does not occur |
| Catalog.Upsert | packages/ai/src/models.ts:769-771 | the entry replaces the first with its id, or is appended; every other lookup and all positions stay |
| Catalog.CurrentModels | packages/ai/src/models.ts:766-774 | looking an id up in the merged list gives the last dynamic entry, else the first baseline entry, else nothing; baseline positions keep their ids and new ids follow in order of first appearance |
| Catalog.NewIdsAreNew | packages/ai/src/models.ts:766-774 | the appended ids are the dynamic ids not in the baseline, each once |
| CatalogRefresh.RefreshMaps.SupersedeProviderRefresh | packages/ai/src/models.ts:320-329 | one provider's generation grows and its controller is taken away and aborted; other providers keep theirs |
| CatalogRefresh.RefreshMaps.BeginProviderRefresh | packages/ai/src/models.ts:331-336 | the new controller is registered under the new generation |
| CatalogRefresh.RefreshMaps.ClearProviders | packages/ai/src/models.ts:279-286 | every known or refreshing provider is superseded exactly once, and no controller stays registered |
| CatalogRefresh.StepKeepsRefreshes | packages/ai/src/models.ts:320-336 | generations of refreshes are distinct and the registered controller belongs to the newest |
| CatalogRefresh.StepKeepsSerial | packages/ai/src/models.ts:344-363 | an unsettled publication keeps all later ones waiting, also when a settled chain entry is dropped |
| CatalogRefresh.StepKeepsOrder | packages/ai/src/models.ts:345-358 | store mutations start, and updates apply, in generation order, and neither store goes back to an older generation |
| CatalogRefresh.OnlyTheNewestPublishes | packages/ai/src/models.ts:347-357 | only a live refresh of the newest generation starts a mutation or applies an update, and it does so with that generation |
| CatalogRefresh.AppliesExactly | packages/ai/src/models.ts:347-358 | an update is applied if and only if the last await of its publication returned without error, its refresh is live and newest and there is an update; the list is then exactly that update |
| CatalogRefresh.StartsExactly | packages/ai/src/models.ts:345-354 | a store mutation begins if and only if a publication that has one is resumed, live and newest |
| CatalogRefresh.StoresExactly | packages/ai/src/models.ts:349-353 | the store changes if and only if a store call lands, and then holds what was written, or nothing after a delete |
| CatalogRefresh.SettlesExactly | packages/ai/src/models.ts:345-358 | a publication ends exactly when it is turned away, has nothing to store, or its store call has returned |
| CatalogRefresh.SupersedesExactly | packages/ai/src/models.ts:320-336 | superseding aborts exactly the registered refresh and starts a new generation, and nothing else does |
| CatalogRefresh.NoStaleCatalog | packages/ai/src/models.ts:320-365 | in every run: at most one mutation at a time, both orders non-decreasing, no store overwritten by an older refresh, and at most one controller, of the newest generation |
| CatalogRefresh.NewestRefreshIsPublished | packages/ai/src/models.ts:344-363 | in every run, a live newest refresh whose store call returns leaves the store with what it wrote and the list it published, until another mutation starts or update is applied |
| CatalogRefresh.PublicationGetsThrough | packages/ai/src/models.ts:338-365 | with nothing else under way, a live newest refresh gets through with what it publishes |
| ProtocolValues.CheckProtocolValue | packages/protocol/src/codec.ts:25-39 | the walk with a shared ancestor set ends on every finite graph, computes `IsProtocolValue`, and restores the set |
| ProtocolValues.ToProtocolJsonValue | packages/server/src/protocol.ts:142-163 | the walk ends on every finite graph, computes `ToJson`, and restores the set |
| ProtocolValues.SanitizeProtocolDetails | packages/server/src/protocol.ts:166-186 | the lossy walk ends on every finite graph, computes `Sanitize`, and restores the set |
| ProtocolValues.SanitizeEach | packages/server/src/protocol.ts:176 | items of an array are sanitized in order, with null for those that have no value |
| ProtocolValues.SanitizeObject | packages/server/src/protocol.ts:177-182 | entries of an object are sanitized in order, without those that have no value |
| ProtocolValues.ToJsonSucceedsExactly | packages/server/src/protocol.ts:142-163 | conversion succeeds exactly when every path from the value is free of repetition and reaches allowed nodes only |
| ProtocolValues.IsProtocolSucceedsExactly | packages/protocol/src/codec.ts:25-39 | acceptance holds exactly when every path from the value is free of repetition and reaches allowed nodes only |
| ProtocolValues.GoodFromUnfolds | packages/protocol/src/codec.ts:30-36 | the statement about all paths is the one-step condition the walks test |
| ProtocolValues.RealizedIsAccepted | packages/protocol/src/codec.ts:25-39 | any object graph laid out as a JSON tree is accepted and converted to that tree |
| ProtocolValues.ConvertedIsAccepted | packages/server/src/protocol.ts:142-163 | what conversion produces is accepted as a protocol value, and converting it again changes nothing |
| ProtocolValues.EveryTreeIsRealized | packages/server/src/protocol.ts:154-159 | every JSON tree can be laid out as fresh objects beside any heap |
| ProtocolValues.SanitizeAgrees | packages/server/src/protocol.ts:166-186 | on every graph the strict conversion accepts, the lossy one gives the same tree |
| ProtocolValues.SanitizeShows | packages/server/src/protocol.ts:166-186 | for every graph: undefined, functions and symbols vanish; non-finite numbers, big integers and dates show their text, a reference back to the path "[Circular]", arrays all their items with null for those that vanish, objects their other entries in order |
| Proxy.DeltaReconstruction | packages/agent/src/proxy.ts:240-351 | after any accepted events, each text or thinking block is the concatenation of its deltas since its last start with the signature of its last end, and a tool call has the id, name and arguments of its last end, or the parse of its deltas, however other blocks' events interleave |
| Proxy.EndCarriesWholeText | packages/agent/src/proxy.ts:266-310 | the content of a text or thinking end is the concatenation of that block's deltas |
| Proxy.AcceptedIffKindMatches | packages/agent/src/proxy.ts:252-351 | an event is accepted exactly when it starts a block or matches the kind of the block last started there |
| Proxy.LinesCharacterised | packages/agent/src/proxy.ts:193-195 | the split is the one and only way to write a text as newline-free lines, each ended by a newline, and a newline-free rest |
| Proxy.SplitAppend | packages/agent/src/proxy.ts:193-195 | carrying the unfinished line over gives the lines of the whole text |
| Proxy.StreamProxy | packages/agent/src/proxy.ts:181-226 | for any chunking, the stream's result is what processing the newline-terminated lines of the whole text gives, ended by an error exactly when a line throws |
| Proxy.StreamRebuilds | packages/agent/src/proxy.ts:197-208 | when no line throws, the message is the one rebuilt from the events of the data lines |
| Proxy.StreamThrowsExactly | packages/agent/src/proxy.ts:197-212 | a stream throws if and only if some data line holds no event or one that does not fit its block |
| Proxy.StreamPushesExactly | packages/agent/src/proxy.ts:200-206 | a stream that does not throw has pushed, in order, every event but the ends of calls that are none, with the whole text where a block ends |
| Proxy.ThrownStreamEndsInError | packages/agent/src/proxy.ts:213-226 | a stream that throws is marked failed and ends in one error event; any other stops for the reason its last done or error event gives |
| Proxy.TrimExactly | packages/agent/src/proxy.ts:199 | trimming takes away white space at both ends, all of it, and nothing else |
| ClientConnection.Connection.Connect | packages/client/src/connection.ts:66-90 | accepted exactly when disconnected; a new attempt has a new number and pending handshake |
| ClientConnection.Connection.HandleMessage | packages/client/src/connection.ts:162-204 | each message moves the lifecycle as the transition says; only a connected one hands messages on |
| ClientConnection.Connection.HandleData | packages/client/src/connection.ts:142-160 | data of an old attempt, early data and undecodable data are treated as the transition says |
| ClientConnection.Connection.NextMessage | packages/client/src/connection.ts:156-159 | the loop goes on with the next message unless the connection is disconnected, whatever the attempt |
| ClientConnection.Connection.TransportObtained | packages/client/src/connection.ts:119-140 | a transport that arrives for an attempt no longer connecting is closed at once; otherwise it becomes the current one |
| ClientConnection.Connection.Fail | packages/client/src/connection.ts:225-231 | the first failure of an attempt disconnects and rejects a pending handshake; later ones do nothing |
| ClientConnection.Connection.FailAndClose | packages/client/src/connection.ts:218-223 | a failure closes the transport the attempt had before its callbacks ran |
| ClientConnection.StepKeepsInv | packages/client/src/connection.ts:66-235 | every step, including re-entrant ones and a factory that throws synchronously inside a callback, keeps the invariant on attempts, settlements, transports and suspended callbacks |
| ClientConnection.AttemptsInEveryRun | packages/client/src/connection.ts:66-235 | in every run: a handshake settles at most once, and exactly once when its attempt is no longer current; a message is handed on only by the current attempt after its hello; with no callback running, every transport obtained is current, closed, or closed itself |
| ClientMessages.HandedExactly | packages/client/src/connection.ts:156-204 | in every run, onMessage is called exactly for the messages other than handshake ones that a chunk's loop reaches while connected, once each and in that order |
| ClientMessages.ChunksAreReadInOrder | packages/client/src/connection.ts:156-159 | a chunk's loop reads on by one message at a time, and is given up only when it is over or the connection lost |
| ClientMessages.ChunkConserved | packages/client/src/connection.ts:156-159 | while a chunk is not given up, what its loop has reached and what it has still to read are, in order, what it had to read |
| ClientMessages.EndsExactly | packages/client/src/connection.ts:79-231 | exactly what ends an attempt; its pending handshake is then rejected and its transport will be closed |
| ClientMessages.BeginsExactly | packages/client/src/connection.ts:66-78 | a new attempt begins exactly when one is asked for while disconnected, under the next number |
| ClientMessages.ConnectsExactly | packages/client/src/connection.ts:162-186 | an attempt connects exactly when its hello is reached and it has its transport |
| ClientMessages.HandshakeSucceeds | packages/client/src/connection.ts:181-196 | a hello whose two callbacks return resolves the handshake, and the chunk goes on |
| ClientMessages.ResolvesExactly | packages/client/src/connection.ts:192-196 | a handshake is resolved in no other way |
| ClientConnection.OldAttemptIsInertExactly | packages/client/src/connection.ts:156-159 | a callback of an old attempt leaves the current one unchanged exactly unless it continues an old chunk; then it ends the current attempt |
| ClientConnection.OldAttemptsAreInert | packages/client/src/connection.ts:79-160 | in runs that do not reconnect inside a chunk's callback, old attempts never change the current one |
| ClientConnection.StaleChunkEndsNewAttempt | packages/client/src/connection.ts:156-159 | a concrete run in which the second message of an old chunk ends a new attempt |
| ClientRequests.Requests.SendRequest | packages/client/src/client.ts:189-207 | a request gets the next number and is pending, or is settled at once by an encoding or connection failure |
| ClientRequests.Requests.HandleResponse | packages/client/src/client.ts:300-318 | a response settles its request, or loses the connection when it matches none or names another command |
| ClientRequests.Requests.RejectPendingRequests | packages/client/src/client.ts:336-340 | every pending request is rejected, in order, and the table is empty |
| ClientRequests.Requests.TakePendingRequest | packages/client/src/client.ts:330-334 | the request with the number is taken out of the table and the others stay in order |
| ClientRequests.Requests.LoseConnection | packages/client/src/client.ts:321-328 | losing the connection rejects every pending request |
| ClientRequests.Requests.DisposeClient | packages/client/src/client.ts:342-353 | the first disposal rejects every pending request and disconnects; later ones do nothing |
| ClientRequests.StepKeepsInv | packages/client/src/client.ts:189-340 | nothing is pending unless connected; every number handed out is pending or settled, not both |
| ClientRequests.RequestCorrelation | packages/client/src/client.ts:189-340 | in every run, across reconnects: the table is empty unless connected, numbers are never reused, no request settles twice, and one resolves only from an ok response with its number and command |
| ClientRequests.ResponseSettlesExactly | packages/client/src/client.ts:300-318 | a response to a pending request resolves it if and only if it is ok and names its command; that or an error response leaves everything else as it was, a mismatched one ends the connection |
| ClientRequests.UnmatchedResponseLoses | packages/client/src/client.ts:300-304 | a response that matches nothing ends the connection and rejects every pending request |
| ClientRequests.CallComesTo | packages/client/src/client.ts:189-207 | a call gets the next number and is pending exactly if it was encoded and sent; one that cannot be encoded fails alone, one that cannot be sent takes all others with it |
| ClientRequests.DisposalRejectsAll | packages/client/src/client.ts:342-353 | disposing rejects every pending request as disposed and disconnects; a second disposal does nothing |
| ClientRequests.ConnectionMovesExactly | packages/client/src/client.ts:321-328 | the connection settles requests exactly when it goes down, and then all of them |
| ClientRequests.ResolvedExactly | packages/client/src/client.ts:189-340 | in every run, a request is resolved if and only if an ok response with its number and command arrived while it was pending |
| ClientLeases.LeaseMaps.ReserveSessionLease | packages/client/src/client.ts:381-393 | refused exactly for an exclusive request beside any lease or a shared one beside an exclusive; other sessions keep their state |
| ClientLeases.LeaseMaps.ReleaseSessionLease | packages/client/src/client.ts:395-400 | one count is dropped, and the exclusive entry only with its own token |
| ClientLeases.LeaseMaps.InvalidateSessionLeases | packages/client/src/client.ts:402-407 | the session's counts and marks are gone and its generation has grown; other sessions keep theirs |
| ClientLeases.LeaseMaps.InvalidateAllSessionLeases | packages/client/src/client.ts:409-412 | exactly the sessions that have a count are invalidated, and no cleanup stays required |
| ClientLeases.StepKeepsHolders | packages/client/src/client.ts:151-268 | every token has one holder, and a step that releases a token releases one not released before |
| ClientLeases.StepReleasesExactly | packages/client/src/client.ts:231-268 | a step changes no token but the one it releases |
| ClientLeases.EveryReleaseIsTheFirst | packages/client/src/client.ts:151-268 | in every run each token is released at most once |
| ClientLeases.StaleReleaseExactly | packages/client/src/client.ts:395-400 | releasing a token of an older generation keeps the account exactly when no newer token is outstanding |
| ClientLeases.FreshReleaseKeepsAccounts | packages/client/src/client.ts:395-400 | releasing an outstanding token of this generation keeps the account |
| ClientLeases.StepKeepsAccounts | packages/client/src/client.ts:151-412 | guarded steps keep the count equal to the outstanding tokens and an exclusive token the only one |
| ClientLeases.LeaseAccounting | packages/client/src/client.ts:151-412 | in every run without a late release beside a newer token, the account holds |
| ClientLeases.DetachOnlyWhenLastExactly | packages/client/src/client.ts:237-241 | a handle that sends detach holds the last outstanding token exactly when its token is of this generation or none is outstanding |
| ClientLeases.DetachInEveryGuardedRun | packages/client/src/client.ts:237-241 | in every run without a late release beside a newer token, a handle that sends detach holds the last outstanding token exactly when its token is of this generation or none is outstanding |
| ClientLeases.DetachBesideActiveHandle | packages/client/src/client.ts:209-241 | a concrete run of that kind after which a release sends detach while another handle is active and its token outstanding |
| ClientLeases.StepKeepsFlights | packages/client/src/client.ts:155-171 | every step keeps the maps of attaches and reconciliations in accord with the requests in flight |
| ClientLeases.SingleFlight | packages/client/src/client.ts:155-171 | in every run at most one attach and at most one reconciliation is in flight; all calls that await an attach in flight await the same one, and so do all that await an unfinished reconciliation |
| ClientLeases.OverStaysOver | packages/client/src/client.ts:214-268 | a released or invalidated handle stays so under every step and is not active |
| ClientLeases.OverForGood | packages/client/src/client.ts:214-268 | in every run a handle that is over is never active again |
| ClientLeases.DisconnectEndsExactly | packages/client/src/client.ts:402-412 | session_removed ends every handle; a disconnect ends exactly the handles already over or all when the session has a count |
| ClientLeases.UnguardedReleaseBreaksIt | packages/client/src/client.ts:395-400 | a concrete run in which a late release lets an exclusive lease in beside a live one |
| ClientLeases.UncountedHandleSurvivesDisconnect | packages/client/src/client.ts:209-211 | a concrete run in which a handle without a count is active again after a reconnect and a later call's attach |
| ClientLeaseLaws.HandlesComeExactly | packages/client/src/client.ts:142-171 | a handle comes about exactly when a create or an attach that was waited for has succeeded, or the session is attached already and needs no cleanup |
| ClientLeaseLaws.AttachIsSentExactly | packages/client/src/client.ts:160-170 | an attach request is sent exactly when a call goes on to attach and none is registered; after a reconciliation every call does |
| ClientLeaseLaws.ReconcileIsSentExactly | packages/client/src/client.ts:155-159 | a reconciling request is sent exactly when a call goes on, a cleanup is required, and none is registered |
| ClientLeaseLaws.DetachIsSentExactly | packages/client/src/client.ts:231-241 | a detach request is sent exactly when a handle that may be released is, with one lease counted at most |
| ClientLeaseLaws.ReleaseEndsExactly | packages/client/src/client.ts:231-268 | where a handle stands when its release begins, when its detach has come back, and when it has failed |
| ClientLeaseLaws.CleanupIsRequiredExactly | packages/client/src/client.ts:255-268 | a cleanup is required exactly from a relinquishing release that failed until a reconciliation or the next generation |
| ClientLeaseLaws.ReleaseKeepsOthersExclusive | packages/client/src/client.ts:395-400 | releasing a token lifts no exclusive lease but its own |
| ClientLeaseLaws.AttachedExactly | packages/client/src/state.ts:29-113 | whether the session is attached after each step |
| ClientLeaseLaws.DisconnectAnswersAll | packages/client/src/client.ts:321-340 | a lost connection leaves no request unanswered, so every call and release that waits can go on |
| ClientLeaseLaws.EntriesAreTemporary | packages/client/src/client.ts:155-268 | in every run, an attach is registered only while some call waits for it, a detach only while some handle does, a reconciliation only until it has finished |
| ClientState.Store.Reset | packages/client/src/state.ts:23-27 | a new connection starts from the empty store |
| ClientState.Store.ClearAttachments | packages/client/src/state.ts:29-31 | a lost connection detaches every session and keeps the snapshots |
| ClientState.Store.ForgetSessionSnapshot | packages/client/src/state.ts:49-53 | the snapshot is given back and no longer stored |
| ClientState.Store.RestoreSessionSnapshot | packages/client/src/state.ts:55-57 | the snapshot is stored again unless another has arrived |
| ClientState.Store.ApplyServerSnapshot | packages/client/src/state.ts:100-104 | a server snapshot of a lower revision is ignored |
| ClientState.Store.ApplySessionSnapshot | packages/client/src/state.ts:106-113 | a session snapshot of a lower revision is ignored unless forced; otherwise it decides whether the session is attached |
| ClientState.Store.ApplyCommandResult | packages/client/src/state.ts:77-86 | list results change nothing; detach results clear the attachment and mark the stored snapshot; others apply their snapshot |
| ClientState.Store.ApplyServerEvent | packages/client/src/state.ts:88-98 | snapshots are applied by revision and a removed session is forgotten |
| ClientState.FoldKeepsLastOfHighest | packages/client/src/state.ts:106-113 | after any session snapshots, the store holds for each id the last to arrive among those of highest revision, and the id is attached exactly when that snapshot says so |
| ClientState.FoldIsOrderIndependent | packages/client/src/state.ts:106-113 | when equal revisions carry equal snapshots, the order of arrival does not matter |
| ClientState.ResultsNeverLowerRevisions | packages/client/src/state.ts:77-86 | no command result lowers a stored revision or forgets a session; a detach leaves it detached |
| ClientState.UpdatesExactly | packages/client/src/state.ts:77-113 | a snapshot that a result or an event brings is stored if and only if none of a higher revision is; detached and removed sessions change as said, all others stay |
| ClientState.ServerUpdatesExactly | packages/client/src/state.ts:100-104 | a server snapshot is stored exactly if none of a higher revision is |
| ClientState.ConnectionChangesExactly | packages/client/src/state.ts:23-31 | a lost connection detaches every session and keeps what is stored; a new one starts from nothing |
| ClientState.UpdatesKeepLastOfHighest | packages/client/src/state.ts:77-113 | whatever results and events arrive, what is held for a session they do not end is the last to arrive of those of highest revision they bring for it |
| ClientState.FailedAttachRestores | packages/client/src/state.ts:49-57 | an attach that fails leaves the snapshot as it was, when none has been brought meanwhile |
| ClientState.AttachmentsStayConsistent | packages/client/src/state.ts:49-113 | in every run that forgets and restores as an attach does, each attached id with a stored snapshot has it marked attached |
| ClientState.OverlappingAttachesBreakIt | packages/client/src/state.ts:49-57 | two overlapping attaches of one session break that |
| Server.Connection.FailProtocol | packages/server/src/server.ts:315-328 | the first failure moves to closing and closes the transport; later ones do nothing |
| Server.Connection.Disconnect | packages/server/src/server.ts:282-291 | the first disconnect closes, leaves the set, and announces exactly when the handshake was complete and the server is not closing |
| Server.Connection.SnapshotLoaded | packages/server/src/server.ts:230-237 | the hello is sent only on a live connection still handshaking |
| Server.Connection.HelloSent | packages/server/src/server.ts:238-249 | the connection becomes ready, with a catch-up exactly when the revision has moved on |
| Server.SnapshotPublisher.Announce | packages/server/src/snapshots.ts:44-48 | broadcasts queue behind one another |
| Server.SnapshotPublisher.Start | packages/server/src/snapshots.ts:50-55 | the targets are exactly the ready, connected members, each once; with none, or when closing, no revision is published |
| Server.SnapshotPublisher.SendNext | packages/server/src/snapshots.ts:58-60 | the envelope with the published revision goes to the next target |
| Server.StepKeepsStages | packages/server/src/server.ts:170-341 | stages only move forward; closed is disconnected is out of the set; clearing the set at shutdown removes nobody |
| Server.StepKeepsCommands | packages/server/src/server.ts:209-218 | each decoded request waits in one place or has started one command, after the server's hello |
| Server.StepKeepsRevisions | packages/server/src/snapshots.ts:50-61 | for each ready connection with an open transport: the current revision is held, or on its way, exactly when no failed broadcast has missed it |
| Server.StagesAndCommands | packages/server/src/server.ts:170-341 | in every run: stages move forward, closed holds exactly of disconnected connections outside the set, no command runs before the hello, at most one per request |
| Server.DispatchEndsExactly | packages/server/src/server.ts:170-218 | before its hello a connection accepts nothing else, and a second hello or an unsupported version ends it |
| Server.RefusedForGood | packages/server/src/server.ts:170-249 | in every run, a connection that begins with an unsupported hello or a request never gets ready, is never sent a hello and starts no command |
| Server.EndsConnectionExactly | packages/server/src/server.ts:170-341 | exactly what ends a connection |
| Server.HelloIsSentExactly | packages/server/src/server.ts:230-237 | the hello is sent exactly when the snapshot is there and the connection live and handshaking |
| Server.GetsReadyExactly | packages/server/src/server.ts:238-249 | a connection gets ready exactly when its hello has been sent while it is handshaking |
| Server.StartsExactly | packages/server/src/server.ts:209-218 | the command a step starts: of a request that arrives when ready, or of the next one that has waited on a ready connection |
| Server.WaitsExactly | packages/server/src/server.ts:209-218 | a request waits exactly when it arrives during the handshake, and requests are taken up in that order |
| Server.PublishesExactly | packages/server/src/snapshots.ts:44-61 | a revision is published exactly when a queued broadcast starts that has a target while the server is not closing; it goes to its targets one by one and makes way for the next |
| Server.RevisionConvergence | packages/server/src/snapshots.ts:34-61 | in every run, when nothing is on its way to a live ready connection, its client holds the current revision exactly when the broadcast of that revision to it did not fail |
| Server.RevisionConvergenceWithoutFailures | packages/server/src/server.ts:230-249 | with no failed service call every ready client ends with the current revision, although its catch-up may arrive after a newer broadcast |
| Server.FailedBroadcastLeavesBehind | packages/server/src/snapshots.ts:55-57 | a failed broadcast leaves each live target without the revision and with nothing on the way |
| Server.FailedBroadcastHappens | packages/server/src/snapshots.ts:50-61 | a concrete run in which it does: the client of a live ready connection holds revision 0 while revision 1 is out and nothing is on the way |
| Server.OvertakingHappens | packages/server/src/server.ts:209-218 | a concrete run in which a request that arrives while the catch-up is loaded starts before one that waits behind the handshake |

## Left out

- AgentRuns.RunWithLifecycle: runs in which an event listener or a hook throws, and the failure message reported then, are
  not modelled.
- AgentRuns.RunAgentLoop: it is given the Agent's snapshot as context and the Agent as sink; other sinks and the event
  stream of `agentLoop` are not modelled, nor is the context array a hook returns being the Agent's own array. Assigning
  `Agent.state.messages` (`packages/agent/src/agent.ts:84-89`) during a run is not modelled either: it would replace the
  Agent's messages without the run knowing.
- AgentQueue.PendingMessageQueue.Clear: conservation is claimed for histories without a clear; changing a queue's mode
  during a run is not modelled either, and `reset` is not.
- AgentLoop.LoopRun.StreamAssistantResponse: the conversion for the model, the context transform and key resolution are
  not modelled; the log records the context they start from.
- AgentLoop.LoopRun.PrepareNextTurn: the model and the reasoning level a hook chooses are not modelled.
- AgentTools.RunCall: argument validation, the abort signal handed to tools, usage, details and added tool names are part
  of a script or left out; texts of errors are numbers.
- Framing.FrameDecoder.Push: non-byte inputs and the configuration check of the limit are not modelled.
- Codec.MessageRoundTrip: CBOR and the schemas are an assumed inverse pair and a partial function.
- Proxy.StreamProxy: text decoding, abort, HTTP errors and events dropped after the stream is done are not modelled, nor are
  usage, error texts and events of unknown types; a tool call's partial JSON parser is a parameter.
- ProtocolValues.ToProtocolJsonValue: arrays are dense and property names are plain map keys; dates, big integers and the
  other leaves of the lossy walk appear only through the string they become.
- CatalogRefresh.NoStaleCatalog: it is about one provider, since the maps of providers do not interact; reading
  credentials, the phases of a refresh and the race with the abort signal are not modelled beyond the publications they
  make.
- ClientConnection.AttemptsInEveryRun: error values are not modelled; a decoder is its verdict on each chunk; callbacks
  other than onHandshake do not throw.
- ClientLeases.LeaseAccounting: it is about one session, since the maps of sessions do not interact; disposing of the
  client and the listeners of a handle are not modelled.
- ClientState.Store.ApplyServerEvent: listeners are not modelled.
- Server.RevisionConvergence: only revisions are claimed, not contents; session commands, `LiveSessionManager`, listeners,
  the handshake timeout as a clock, and the transports are not modelled.
- Thinking levels, costs, flags, key bindings, configuration, model catalogs other than the overlay, the command line and
  the user interface are not modelled.
