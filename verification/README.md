# Verified model of the agent runtime's stateful core

This project models, in Dafny, the parts of the runtime that keep durable or shared
state and its self-contained text and wire algorithms, and proves what they promise.

- **Sub-session replay** (`SubSession.dfy`, `SubSessionReplay.dfy`, `ReplayMessages.dfy`,
  `ReplayCuts.dfy`, `ReplayCatchUp.dfy`). A child conversation is stored twice, as chat history and as an event log. The merge groups
  events into runs, finds for each run the whole turn it mirrors, and shows the events in
  that turn's place. The merge loses and repeats nothing, and removes only what a run says itself; its
  greedy search places every run
  whenever any placement exists; a fully mirrored conversation replays to exactly its own
  text, and a history read before the log is replayed as it will be once it has caught up.
- **Proactive delivery** (`Outbox.dfy`, `OutboxLaws.dfy`). The outbox protocol, stopped at
  any point, against a provider that de-duplicates a UUID for one hour. The service's
  methods keep a journal of what they do outside, which is shown to be a run of client
  steps; the laws are about all runs. At-most-once delivery fails in one case, which is
  exhibited and shown to be the only one (`OutboxLaws.RetryIsSafeExactly`).
- **Agent-to-agent channel** (`A2a.dfy`, `AnswerStream.dfy`, `ApplicationEvents.dfy`,
  `ReplyStream.dfy`, `FrameCodec.dfy`, `Multiplex.dfy`, `Delegation.dfy`, `TaskStore.dfy`,
  `ActiveTasks.dfy`). From a dispatched run through the executor's stream and frames on a
  shared pipe to the answer a caller folds back together, end to end; the store whose
  terminal states are final; the table of active runs and its cleanup guards.
- **Terminal text sanitizer** (`TuiText.dfy`). The peeking loops refine an automaton.
- **Profile registry** (`ProfileRegistry.dfy`, `RegistryRuns.dfy`, `DefaultAlias.dfy`).
  Lock, reload, edit, write, rename by any number of processes with stale copies that may
  fail or die anywhere: the file is always the saved operations in lock order.
- **Run dispatch and log paging** (`Dispatch.dfy`, `RunTable.dfy`, `RunLoop.dfy`,
  `EventLog.dfy`). Every interleaving of commands, runs, callers and shutdown; the handlers
  of the command loop and the loop of one run as methods, each a step or a sequence of steps
  of that system; byte-offset paging over a log that grows between reads.
- **Splicing and names** (`OutputProtocol.dfy`, `EntityDirectory.dfy`,
  `SnapshotNames.dfy`, `SnapshotStore.dfy`). In-place replacement against a forward pass;
  the entity directory; a file tree that acts as a map.

`Text.dfy` and `Ordering.dfy` hold shared helpers. Code that loops or updates fields is
written as methods and classes and proved against functions; the laws are lemmas about
those functions. What a function must mean is also stated in terms that the code does not
use: the characters and speakers of a conversation, the elements selected from a sequence
(`Text.Selected`), the grammar of escape sequences, numbers and names as they are written.
Protocols of several processes or tasks are step systems: `Enabled` says
when a step may happen, `Next` what it does, and the laws hold of every sequence of steps.

Five findings come with their exact conditions:

- A retry that stops before sending, or that the provider answers with an error (lines
  531-543 and 584 of `src/proactive.rs`), stores "failed" over an attempt whose message may
  be out. The window check looks only at "uncertain" and "sending", so a retry an hour later
  may post a second message. A retry is safe exactly if the record is not such a stale
  failure (`OutboxLaws.RetryIsSafeExactly`).
- The executor of an application's runs takes a channel that closes for the end of the run.
  A run that is cancelled or terminated before its `Done` is delivered may leave its caller
  with part of the text marked as completed. An answer so marked is the run's whole reply
  exactly if `Done` was delivered (`Delegation.CompletedIsTrueExactly`).
- When the log is ahead of the history, the search for the active run's turn may stop at an
  earlier turn that reads like the whole run. What the run said since the history was read
  is shown exactly if there is no such turn in reach (`ReplayCatchUp.ReplayCatchesUp`).
- A guard dropped where no async runtime is current spawns no cleanup, so its entry stays.
  The table of active runs empties exactly if that happened to no id's latest run
  (`ActiveTasks.EmptyWhenAllGuardsAreDone`).
- A terminal status whose save failed can be undone by a restart; a terminal status in
  memory is final exactly if the file has it (`TaskStore.TerminalIsFinalExactlyOnDisk`).

Two smaller ones: deleting the snapshots of a session called "." or ".." would take others
with it (`SnapshotStore.DeleteIsPrivateExactly`), and of two nested replaced nodes the
outer one is spliced correctly exactly if the inner replacement keeps the length; if the
text gets too short for it, the source panics (`OutputProtocol.NestedSplice`).

Check the project with `dafny verify dfyconfig.toml` (Dafny 4.11).

## Model

| member | source | states |
|---|---|---|
| SubSession.ProjectRun | src/sub_session.rs:154-180 | the projection loop computes the coalesced role and text parts of a run, without a final output that only repeats what was streamed |
| SubSession.GroupRuns | src/sub_session.rs:131-141 | the index map groups events into runs by thread and run id, in order of first appearance, each run's events in log order |
| SubSession.RunsSnoc | src/sub_session.rs:131-141 | one more event extends its own run and no other, or opens a new last run |
| SubSession.MatchTurn | src/sub_session.rs:181-212 | the search returns the first user message at or after the cursor whose whole turn coalesces to the projection, or is the last turn and an active prefix of it, and the end of that turn |
| SubSession.IsActivePrefix | src/sub_session.rs:195-207 | the part-by-part comparison is the rule for a log that got ahead of the history snapshot |
| SubSession.CoalesceMessages | src/sub_session.rs:142-150 | pushing messages one by one joins neighbours of one role |
| SubSession.PushAllCoalesced | src/sub_session.rs:142-150 | coalescing first makes no difference to what is pushed afterwards |
| SubSession.MergeHistoryWithEvents | src/sub_session.rs:127-231 | run by run, the plain history up to the matched turn, then the run's events in the turn's place, and the unmatched rest at the end |
| SubSession.Transcript | src/sub_session.rs:96-117 | the transcript is the coalesced visible messages, with one heading at each change of speaker |
| SubSession.RenderPush | src/sub_session.rs:96-117 | a message of the same speaker adds its text only, one of another speaker adds a heading first |
| SubSession.RenderContinues | src/sub_session.rs:96-117 | a message is appended as it is, or under the heading of its role, after a blank line unless it is the first |
| SubSession.VisibleAreSelected | src/sub_session.rs:97-101 | the transcript has every message with a text, once and in order |
| SubSessionReplay.ProjectionIsMirrored | src/sub_session.rs:23-57 | what recording mirrored for a run, consulting the log file by run id alone, is the projection the merge computes from the run's events |
| ReplayMessages.SameRunIsSelected | src/sub_session.rs:131-141 | a run is the events with its thread and run id, each once and in log order |
| ReplayMessages.TrimsAgree | src/sub_session.rs:31-49 | two texts trim to the same exactly if they are one text but for white space around it, and to nothing exactly if they are blank |
| ReplayMessages.EventSays | src/sub_session.rs:67-94 | what each kind of event says: the task, title or default opening of the user, each nonempty delta, a final output that is not blank and not only what was streamed, errors and cancellation |
| ReplayMessages.RunSays | src/sub_session.rs:154-180 | the messages of a run are what its events say one after another, with what was streamed before each |
| SubSessionReplay.CutsAreValid | src/sub_session.rs:181-212 | removed turns are whole, disjoint and in order, and each coalesces to its run's projection or is the final turn and a prefix of it |
| ReplayCuts.CoalesceSpells | src/sub_session.rs:142-150 | joining neighbours changes neither what is said character by character nor who speaks in turn |
| ReplayCuts.CutsSayTheSame | src/sub_session.rs:181-212 | a removed turn is one user message up to the next; its text is a prefix of what its run says, by the same speakers, and all of it unless the turn is the last |
| ReplayCuts.OtherTurnsStay | src/sub_session.rs:124-126 | a turn that says anything else than the runs, even as the last one, stays whole |
| SubSessionReplay.MergeFromConserves | src/sub_session.rs:182-230 | from any cursor, the merged list's events are the runs one after another and its messages the rest of the history in order minus the removed turns |
| SubSessionReplay.MergeConserves | src/sub_session.rs:127-231 | the output holds every event exactly once, each run's in log order, runs as blocks in first-appearance order, and exactly the messages outside the removed turns, in order |
| SubSessionReplay.EachRunIsABlock | src/sub_session.rs:213-230 | each run's events are contiguous, preceded by exactly the events of the runs before it |
| SubSessionReplay.FlattenKeepsRuns | src/sub_session.rs:131-141 | regrouping keeps every run's events, each once |
| SubSessionReplay.GreedyIsLeftmost | src/sub_session.rs:181-212 | if one turn per run can be chosen in order, the greedy search matches every run, none later than chosen |
| SubSessionReplay.GreedyIsComplete | src/sub_session.rs:181-212 | the greedy search matches every run if and only if some ordered choice of one turn per run exists |
| SubSessionReplay.ExactTurnsAreReplaced | src/sub_session.rs:181-230 | when the runs' projections are turns of the history in order, each run replaces exactly one whole turn with the same text |
| SubSessionReplay.ReplayShowsHistory | src/sub_session.rs:127-231 | when every run's turn is what was mirrored of it so far and the log is not ahead, with direct turns anywhere between, the replay shows exactly the text of the history |
| ReplayCatchUp.LogGrows | src/sub_session.rs:4-57 | however a log grows, only its last run gains messages and further runs follow; together these are everything mirrored since |
| ReplayCatchUp.ShownAhead | src/sub_session.rs:181-230 | from any cursor before the turns, if the active run is found at its own turn, the text shown is the history's, then what the active run said since, then the later runs |
| ReplayCatchUp.CaughtUp | src/sub_session.rs:195-230 | in that case the replay of a log that is ahead shows the text of the history mirrored at the later log |
| ReplayCatchUp.ShownAtMost | src/sub_session.rs:181-230 | a run replaced by an equal turn adds no text to the history, and any other run at most what it said |
| ReplayCatchUp.ReplayCatchesUp | src/sub_session.rs:195-230 | a log that is ahead of the history is replayed with the text of the history mirrored at the later log unless an earlier turn in reach reads like the whole active run; if the active run said anything since, if and only if there is no such turn |
| ReplayCatchUp.RepeatedAnswerIsLost | src/sub_session.rs:181-212 | a concrete conversation: a question asked and answered twice, whose active run's latest words are not shown |
| Outbox.DeliveryService.Save | src/proactive.rs:435-440 | a save files the record under its session and key and changes no other record |
| Outbox.DeliveryService.Status | src/proactive.rs:442-446 | the status is the receipt as stored under that session and key, or an error if there is none |
| Outbox.DeliveryService.AppendProactiveAssistantMessage | src/proactive.rs:595-609 | the chat history gets the message of a delivery id once, and other sessions' histories do not change |
| Outbox.DeliveryService.Open | src/proactive.rs:492-518 | a known key yields its record only for the same text, platform and channel and files nothing; a new key files a fresh pending record |
| Outbox.DeliveryService.Deliver | src/proactive.rs:522-594 | window check, anchor and authentication failures, first-attempt time, sending, and the outcome of the call are saved in that order, each before the next outside effect |
| Outbox.DeliveryService.Commit | src/proactive.rs:595-612 | the history append comes before the record is complete; if the append fails the record stays sent |
| Outbox.DeliveryService.Resume | src/proactive.rs:519-613 | from a loaded record, everything a call does outside is a run of client steps, and it reports as promised: one request exactly if the message is asked for, the state and error each outcome leaves, the history entry once the message is out, and an error exactly if that entry cannot be written |
| Outbox.DeliveryService.Send | src/proactive.rs:448-613 | a call is turned away, changing nothing, exactly if it is not accepted, has no session or gateway, or its key belongs to another delivery; any other call does outside exactly a run of client steps on its own record and reports as promised, for every record, outcome and clock; other deliveries are untouched |
| Outbox.DeliverIsARun | src/proactive.rs:522-594 | for every record and environment the delivery part is a run of client steps with exactly its effects |
| Outbox.DeliveredReports | src/proactive.rs:520-594 | the delivery part calls the provider exactly if the record has no message id, its one-hour window is not over and neither anchor nor authentication fails, and leaves the state, error, message id and first attempt that the outcome calls for |
| Outbox.DidThen | src/proactive.rs:448-613 | runs of client steps compose, effects included |
| OutboxLaws.CallIsARun | src/proactive.rs:448-613 | what a call did, with the network acting while it waits, is a run of the whole world that ends in the client state the call left |
| OutboxLaws.StepKeepsInv | src/proactive.rs:492-613 | every step of client, network, clock and restart keeps the protocol's invariant |
| OutboxLaws.RecordLifecycle | src/proactive.rs:492-613 | through any steps and stops, identity fields never change, first attempt and message id are written once, sent only becomes complete, complete is final |
| OutboxLaws.ReachableRecords | src/proactive.rs:492-613 | a message id is present exactly when sent or complete and is of a message really created from this record; complete follows the history append, made once; a request that reached the provider, accepted, repeated or rejected, had an earlier durable first attempt; a failed record carries the error of a refusal or of a failed send; a status read never says sending |
| OutboxLaws.AtMostOnce | src/proactive.rs:522-593 | over every run in which no attempt starts from a stale failure the provider creates at most one message, and a complete record names that message |
| OutboxLaws.LostReply | src/proactive.rs:576-591 | a concrete run whose client steps are those of one call: the message arrives, the reply is lost, the record says uncertain |
| OutboxLaws.ForgottenMessage | src/proactive.rs:531-584 | for every failed record the service can store after an attempt, a run of two calls that leaves it while the message is out: the second stops before sending (531-543) or is answered with an error (584), and overwrites uncertain with failed |
| OutboxLaws.StaleRetryPostsTwice | src/proactive.rs:68-73 | from there, an hour or more later, one more call, with exactly the steps of a call, posts a second message |
| OutboxLaws.RetryIsSafeExactly | src/proactive.rs:68-73 | over all runs that lead to the record, a retry from it can never post a second message if and only if it is not a failure whose first attempt is an hour or more ago |
| AnswerStream.Collector.AppendParts | src/external_agent.rs:260-266 | the text parts are appended in order and data parts are skipped |
| AnswerStream.Collector.CollectEvent | src/external_agent.rs:239-258 | one event updates answer and terminal state: messages and artifacts add their text parts, a snapshot sets the state and gives the answer only if there is none, a status counts only if it is final |
| AnswerStream.CollectExecutorEvents | src/external_agent.rs:239-258 | activity changes nothing, an artifact event appends its text, and the completed snapshot never counts the answer twice |
| AnswerStream.ExecuteRemi | src/a2a_channel.rs:445-561 | the stream is working, the activity of every event read with the answer's pieces in between, and the end; the pieces are the nonempty deltas in order, only the first with append=false and only the last with lastChunk=true; folding it gives exactly their concatenation and the final state; the end is the snapshot of a completed run or the final status and its message |
| AnswerStream.EndStateDecides | src/a2a_channel.rs:519-552 | the first run-finished event decides: error is failed, cancelled and interrupted are canceled, any other or no status completed; without one the last cancellation or error does, and without those the run failed |
| AnswerStream.ErrorMessageExplains | src/a2a_channel.rs:520-555 | the message is that of the last error, or that the run did not say how it ended |
| AnswerStream.DeltasAreTexts | src/a2a_channel.rs:502-518 | the deltas are the nonempty texts of the text events, each once and in order |
| AnswerStream.StreamDelta | src/a2a_channel.rs:491-518 | holding one delta back keeps the stream equal to all deltas but the latest |
| AnswerStream.StreamLastChunk | src/a2a_channel.rs:547-549 | after the held-back delta is sent as last chunk the fold is the whole text |
| AnswerStream.StreamEnd | src/a2a_channel.rs:550-559 | the end event sets the state and leaves the folded text as it is |
| AnswerStream.ConsumedIs | src/a2a_channel.rs:499-545 | the loop reads exactly up to the first run-finished event |
| ApplicationEvents.UntilDoneIs | src/a2a_channel.rs:290-320 | the events before the first done event are all that the loop reads |
| ApplicationEvents.UntilDoneOfPrefix | src/a2a_channel.rs:290-320 | once the done event was delivered, nothing later belongs to the answer |
| ApplicationEvents.ReplyTextIsReply | src/a2a_channel.rs:291-317 | the reply is the text of the last completed response and what was said after it, or all that was said if there is none |
| ApplicationEvents.ReplyEnds | src/a2a_channel.rs:303-313 | the last error or cancellation decides the state, the last error gives the message, and without either the run completed |
| ReplyStream.ExecuteApplication | src/a2a_channel.rs:259-328 | the stream is working, then the activity of each event shown before the done event or the channel's end, as it must be shown, then the snapshot with the reply if the run completed, or the final status with the last error |
| ReplyStream.FoldIsOutcome | src/a2a_channel.rs:290-326 | folding that stream gives the reply of the events read exactly once if they say completed and no text otherwise, with the final state; it has no partial chunks |
| FrameCodec.FrameReader.ReadExact | src/a2a_stdio.rs:62-83 | the buffer is filled from the front of what is left, or the end of the stream is reached |
| FrameCodec.FrameReader.ReadFrame | src/a2a_stdio.rs:62-83 | one frame is parsed off the front: end of stream in or before a header, errors for a zero or oversized length and for a cut payload |
| FrameCodec.FrameReader.ReadAll | src/a2a_stdio.rs:116-116 | the request loop yields the frames of the stream until it ends or fails |
| FrameCodec.FrameWriter.WriteFrame | src/a2a_stdio.rs:85-99 | a payload of at most 16 MiB is appended as four bytes of length, the highest first, and its bytes; a larger one is refused and nothing written |
| FrameCodec.ParseEncoded | src/a2a_stdio.rs:62-99 | a written frame reads back, whatever follows it |
| FrameCodec.DecodeEncoded | src/a2a_stdio.rs:62-99 | decoding the concatenation of any payloads of 1 byte to 16 MiB returns exactly those payloads and a clean end |
| FrameCodec.DecodePrefix | src/a2a_stdio.rs:62-83 | any byte prefix decodes to the whole frames before the cut, then a clean end if cut at or inside a header and an error if cut inside a payload |
| FrameCodec.DecodingIsCanonical | src/a2a_stdio.rs:62-99 | whatever any bytes decode to is valid and encodes back to the bytes it was read from |
| Multiplex.StreamScriptShape | src/a2a_stdio.rs:129-177 | what one request's job sends after the assignment is events, then exactly one done or error, all with its id |
| Multiplex.ScriptOf | src/a2a_stdio.rs:116-214 | what a received request will be answered with never changes |
| Multiplex.EveryRun | src/a2a_stdio.rs:102-221 | every interleaving of reader, jobs and writer keeps queue and pipe made of prefixes of the jobs' scripts |
| Multiplex.AnswersArePrefixes | src/a2a_stdio.rs:107-221 | for any interleaving, the pipe's frames for one message-stream id are a prefix of assignment, events, then one done or error, and all of it once everything is written |
| Multiplex.RequestCanBeAnswered | src/a2a_stdio.rs:102-221 | a server takes requests from the start, and there is a run in which a request is answered whole |
| Multiplex.Ask | src/external_agent.rs:178-209 | the response loop computes the fold of its own id's frames up to its done or error |
| Multiplex.AskIgnoresOthers | src/external_agent.rs:187-198 | frames with other ids make no difference to a caller |
| Multiplex.UnfinishedAnswerExits | src/external_agent.rs:182-186 | a pipe that closes before the answer is complete is noticed, never taken for an answer |
| Multiplex.CallerGetsItsOwnAnswer | src/external_agent.rs:178-209 | in every interleaving a caller gets the fold of exactly its own events or notices that the answer is incomplete |
| Delegation.PipedAnswer | src/a2a_stdio.rs:102-221 | in every interleaving of the pipe the caller of an application gets the outcome of the events its executor was given, or notices that the answer is incomplete |
| Delegation.AskHub | src/external_agent.rs:333-350 | through a hub, the loop computes the fold of the whole stream: an error without a final state, another state than completed or no text |
| Delegation.HubGetsDeltas | src/external_agent.rs:333-350 | through a hub, the stream of the chat executor gives exactly the concatenation of its deltas |
| Delegation.HubGetsReply | src/external_agent.rs:333-350 | through a hub, the stream of the application executor gives the reply of the events it read |
| Delegation.HeardIsWhole | src/application.rs:2166-2183 | in every run of the dispatcher, an executor that read all there is answers as for the whole run if the run was not cancelled or its done event was delivered |
| Delegation.DelegatedAnswer | src/external_agent.rs:178-209 | end to end, over every interleaving of the application and of the pipe, the caller of a run that was not cancelled before its done event was delivered gets the run's whole reply, once, and only if it completed, or notices that the answer is incomplete |
| Delegation.TerminatedRunLooksCompleted | src/application.rs:2202-2225 | whatever a run without error has said so far, terminating it then can give its caller that text marked as completed |
| Delegation.CancelledRunLooksCompleted | src/application.rs:2166-2183 | so can cancelling it, though the run itself ends in a cancellation |
| Delegation.CompletedIsTrueExactly | src/a2a_channel.rs:290-326 | an answer marked as completed is the whole reply of every run it may come from if and only if the done event was delivered |
| TaskStore.JsonTaskStore.CreateTask | src/a2a_channel.rs:915-923 | a new id is stored with version 1, a known one is refused; the answer and the file say whether the save succeeded |
| TaskStore.JsonTaskStore.UpdateTask | src/a2a_channel.rs:925-942 | the task is replaced, except that the status of a completed, failed, canceled or rejected task stays, and its version grows by one; unknown ids are refused; the answer and the file say whether the save succeeded |
| TaskStore.JsonTaskStore.ListTasks | src/a2a_channel.rs:953-998 | the response is the requested page of the tasks with the asked context and state, in id order |
| TaskStore.JsonTaskStore.Save | src/a2a_channel.rs:894-911 | a successful save makes the file equal to memory and a failed one leaves it |
| TaskStore.Page | src/a2a_channel.rs:970-998 | the page has the size asked for or 50 and starts at the token's number or, if the token is no number of 64 bits, at the beginning; each task has its last messages; the next token is the decimal number of the next task, or empty at the end; both sizes are cut to 32 bits |
| TaskStore.StoreSummarizesWrites | src/a2a_channel.rs:915-942 | over any creates and updates, an entry exactly if written; every field is the latest write's but the status, frozen at the first terminal one; the version counts the writes; the key is the id |
| TaskStore.AcknowledgedTerminalIsFinal | src/a2a_channel.rs:925-942 | an acknowledged terminal status survives any later writers, failed saves and restarts |
| TaskStore.TerminalIsFinalExactlyOnDisk | src/a2a_channel.rs:894-942 | a terminal status in memory is final under all later operations if and only if the file has it |
| TaskStore.UnsavedTerminalIsLost | src/a2a_channel.rs:894-942 | a concrete run: a task ends, the save fails, and after a restart the task is working again |
| TaskStore.ParsePrinted | src/a2a_channel.rs:970-990 | a printed page token parses back to its number |
| TaskStore.WalkFrom | src/a2a_channel.rs:970-998 | from any token the remaining pages are the remaining matches, and following them ends |
| TaskStore.PagesCoverMatches | src/a2a_channel.rs:953-998 | on an unchanged store, following the tokens from the start returns every matching task exactly once, in id order, for any page size |
| Ordering.ListingIsUnique | src/a2a_channel.rs:953-969 | a set of ids has one sorted listing, so the page walk does not depend on map order |
| Ordering.SortedKeys | src/a2a_channel.rs:953-969 | sorting the matching ids gives that listing |
| Ordering.LessIsLexicographic | src/a2a_channel.rs:969-969 | the order is by the first character in which two ids differ, a prefix first |
| ActiveTasks.ActiveApplicationTask.constructor | src/a2a_channel.rs:284-287 | in any world that shares the table, a new guard with its entry is that world's start step |
| ActiveTasks.ActiveApplicationTask.Finish | src/a2a_channel.rs:64-74 | in any world the guard stands in, finishing is that world's step: the run's own entry goes and never another run's |
| ActiveTasks.ActiveApplicationTask.Drop | src/a2a_channel.rs:77-100 | dropping a finished guard changes nothing; dropping a live one is the world's step, after which a cleanup can happen exactly if one was spawned |
| ActiveTasks.ActiveApplicationTask.Cleanup | src/a2a_channel.rs:86-97 | in any world with the guard dropped, the cleanup is that world's step: only the run's own entry goes, and the run is asked to cancel |
| ActiveTasks.StepsRun | src/a2a_channel.rs:57-100 | runs begin with an empty table and go on with any start, finish, drop or cleanup that can happen |
| ActiveTasks.EveryRun | src/a2a_channel.rs:57-100 | over any interleaving of starts, finishes, drops and cleanups the table is exactly the latest run of each id until its own guard has cleaned up |
| ActiveTasks.GuardsRemoveOnlyTheirOwn | src/a2a_channel.rs:64-97 | no step removes or replaces another run's entry but a start on the same id, and every entry belongs to a guard that has not cleaned up |
| ActiveTasks.EmptyWhenAllGuardsAreDone | src/a2a_channel.rs:77-100 | once all guards are done the table is empty if and only if no id's latest run was dropped outside a runtime |
| TuiText.SkipEscapeSequence | src/tui_text.rs:34-49 | skipping after an escape shows nothing and ends at a ground point or at the end of the input |
| TuiText.SkipCsi | src/tui_text.rs:51-60 | skipping a control sequence shows nothing and ends at a ground point or at the end of the input |
| TuiText.SkipStringControl | src/tui_text.rs:62-75 | the loop that peeks for a string terminator agrees with the automaton that does not peek |
| TuiText.SequenceVanishes | src/tui_text.rs:34-75 | a control sequence, a string with any of its leads and ends, a character-set choice or an escape with one other character shows nothing and ends where it ends |
| TuiText.PlainCharacter | src/tui_text.rs:1-18 | of the other characters, line feed and tab are kept, a carriage return becomes a line feed, controls and directional marks vanish, and the rest is kept |
| TuiText.PiecesAreShown | src/tui_text.rs:1-75 | a text of escape sequences and other characters, cut anywhere, shows exactly the other characters |
| TuiText.SanitizeTuiText | src/tui_text.rs:1-18 | the peeking loop's output is that of the one-character-at-a-time automaton |
| TuiText.ReadConcat | src/tui_text.rs:1-75 | reading a concatenation is reading the parts, the second from where the first stopped |
| TuiText.SanitizeDistributesExactlyAtGround | src/tui_text.rs:1-18 | sanitizing distributes over concatenation with every continuation if and only if the first part ends at a ground point |
| TuiText.OutputIsClean | src/tui_text.rs:1-32 | the output has no control and is never longer than the input |
| TuiText.CleanTextIsKept | src/tui_text.rs:1-32 | text without a control is unchanged |
| TuiText.SanitizeFixedPoints | src/tui_text.rs:1-32 | sanitizing changes nothing if and only if there is no control |
| TuiText.SanitizeIdempotent | src/tui_text.rs:1-18 | sanitizing twice is sanitizing once |
| ProfileRegistry.Registry.RegisterProfile | src/profile_registry.rs:114-163 | under the lock the file becomes the reloaded document with the alias set and sorted in, or a conflict leaves it alone; a held lock changes nothing |
| ProfileRegistry.Registry.UnregisterAlias | src/profile_registry.rs:165-182 | the first entry with the alias (the reference without a leading @) is removed and returned, whatever the caller's stale copy held |
| ProfileRegistry.Registry.RepairRegistry | src/profile_registry.rs:184-198 | entries without a manifest are removed and counted, and nothing is saved if there are none |
| ProfileRegistry.MapOfDocument | src/profile_registry.rs:21-26 | a document with unique sorted aliases holds each alias's entry exactly once |
| ProfileRegistry.RemoveIsFilter | src/profile_registry.rs:171-179 | where aliases are unique, removing the first entry with one is filtering it out |
| ProfileRegistry.PerformRefinesMap | src/profile_registry.rs:139-198 | editing the document succeeds exactly when its meaning on a map from aliases does, gives that map, and keeps aliases unique and sorted |
| RegistryRuns.FileIsReplay | src/profile_registry.rs:114-283 | in every run of any number of processes the file is the saved operations applied one by one in lock order from the empty document, equal to their meaning as map updates, with aliases unique and sorted and at most one process inside the lock |
| RegistryRuns.AnswersAreTrue | src/profile_registry.rs:139-198 | every reported success is in that order under its own lock ticket, and every refusal or empty repair was right for the file at that moment |
| RegistryRuns.OnlySavesChangeTheFile | src/profile_registry.rs:219-231 | the file changes only by the lock holder's rename, to what its operation makes of the current file |
| RegistryRuns.AbandonedLockBlocks | src/profile_registry.rs:257-283 | a process that dies inside the lock blocks all later changes and harms nothing |
| RegistryRuns.UncontendedCall | src/profile_registry.rs:114-198 | a call with a free lock, neither stopped nor failing, is a run that ends as the methods above say |
| RegistryRuns.FirstCall | src/profile_registry.rs:114-163 | from an empty registry a process with any stale copy can register a profile, and the file has exactly that |
| RegistryRuns.StepKeepsInv | src/profile_registry.rs:114-283 | every step of every process, failures and deaths included, keeps the invariant behind these laws |
| DefaultAlias.Compute | src/profile_registry.rs:292-307 | the loop ends and gives the id with each run of foreign characters and dashes as one dash and none at the ends: only letters, digits, dashes and underscores |
| DefaultAlias.ReplaceKeepsCollapse | src/profile_registry.rs:303-305 | one round of replacing double dashes does not change what the id collapses to |
| DefaultAlias.CleanIdIsKept | src/profile_registry.rs:292-307 | an id that is already an alias is its own alias |
| RunTable.Dispatcher.StartRun | src/application.rs:2097-2201 | the handler is the dispatcher's run step: every start takes a new id, whether or not it fails |
| RunTable.Dispatcher.CancelRun | src/application.rs:2202-2225 | the handler is the cancel or terminate step, and the answer says whether the id was in the table |
| RunTable.Dispatcher.HandleFinished | src/application.rs:2280-2282 | the handler is the step that takes one finished message |
| RunTable.Dispatcher.TellAllToStop | src/application.rs:2284-2287 | the loop over the table, in any order, sets both tokens of every tabled run and of no other |
| RunTable.Dispatcher.DrainOne | src/application.rs:2288-2297 | one run is waited for while runs and callers make progress; it leaves the table and is aborted only if it is not over then; all of it is a sequence of steps |
| RunTable.Dispatcher.Shutdown | src/application.rs:2283-2300 | every tabled run is told to stop and then waited for, one after another; this is a sequence of steps and ends with an empty table |
| RunLoop.Execute | src/application.rs:2135-2184 | the loop reads the whole stream and writes down exactly its child events and model inputs, in order, and delivers what comes before the first failed delivery; in any world where the run has just started it is a sequence of the run's steps |
| Dispatch.StepKeepsInv | src/application.rs:2097-2300 | every step of commands, runs, callers and shutdown keeps the dispatcher's invariant |
| Dispatch.AfterIsRun | src/application.rs:2097-2300 | a sequence of steps continued from a reached world is itself a run of the dispatcher |
| Dispatch.EveryRun | src/application.rs:2097-2300 | every interleaving of commands, runs, callers and shutdown keeps deliveries, effects, ids and the table consistent |
| Dispatch.DeliveredIsPrefix | src/application.rs:2166-2183 | a caller receives a prefix of its run's stream, and all of it is sent unless the caller left or the run was cancelled |
| Dispatch.EffectsCoverStream | src/application.rs:2142-2166 | a run that was not aborted leaves the child events and model inputs of its whole stream, in order and nothing else, whoever listens; an aborted one misses those of its last event at most |
| Dispatch.EffectsAreRecorded | src/application.rs:2142-2160 | what is written down of a stream is each child event and each model input, as often as it is there and in its place |
| Dispatch.ChannelHolds64 | src/application.rs:2177-2183 | delivery waits once 64 events are unread, ends if the caller has left, and may end if a token is cancelled |
| Dispatch.IdsAreNeverReused | src/application.rs:2102-2121 | no two runs have one id, failed starts in between or not |
| Dispatch.LateFinishIsHarmless | src/application.rs:2280-2282 | a finished message, however late, leaves no entry under its id and removes nothing but the ended run it is about |
| Dispatch.CommandsReachTheirRun | src/application.rs:2203-2225 | cancelling a live run by its id sets its token and nothing else; forcing it aborts it and takes it, and only it, out of the table |
| Dispatch.LiveRunsAreTabled | src/application.rs:2187-2225 | every run that is not over is found in the table under its id |
| Dispatch.ShutdownSettlesAll | src/application.rs:2283-2300 | after shutdown the table is empty and every run has ended or was aborted |
| Dispatch.ShutdownCanFinish | src/application.rs:2283-2300 | while shutdown drains, waiting too long for a run always takes it out of the table |
| EventLog.SubSessionLog.Append | src/sub_session.rs:4-21 | the file gets the event's line and a newline at its end, and encodes the events with the new one last |
| EventLog.TrimEndCuts | src/application.rs:2462-2462 | exactly the white space at the end of a line is cut off before it is parsed |
| EventLog.ReadLines | src/application.rs:2452-2468 | on any bytes, the loop takes up to so many lines from the offset, ends at the file's end, and fails on the first line that does not parse |
| EventLog.SubSessionLog.ReadEvents | src/application.rs:2431-2469 | a missing file is an empty page at the same offset; otherwise at least one line is asked for |
| EventLog.PageOfLog | src/application.rs:2452-2468 | from a line boundary a page is the next events, none skipped, and ends on a line boundary |
| EventLog.ReadFromBoundary | src/application.rs:2431-2469 | from a line boundary a read never fails and makes progress unless everything was read |
| EventLog.SubSessionLog.LoadAll | src/tui_app.rs:3433-3447 | the loading loop ends and returns every event of the log |
| EventLog.PagesFollowTheLog | src/application.rs:2431-2469 | for any limits and any appends between reads, the pages concatenate to the log up to the offset, which is a line boundary, and an unfinished log always yields progress |
| OutputProtocol.Splice | src/output_protocol.rs:598-625 | the loop replaces in place from the last node to the first, and fails exactly on a range the text no longer has |
| OutputProtocol.InPlaceIsForward | src/output_protocol.rs:598-640 | where the replaced nodes are apart, replacing in place equals one forward pass joining the gaps with the replacements |
| OutputProtocol.RenderMentions | src/output_protocol.rs:593-625 | mentions and broadcasts are replaced as the callbacks say, tables and charts for a text-only channel by their Markdown, other nodes not, for any nodes; by one forward pass if the replaced ones are apart |
| OutputProtocol.RenderResources | src/output_protocol.rs:627-640 | resources are replaced as the callback says and other nodes not, for any nodes; by one forward pass if the replaced ones are apart |
| OutputProtocol.DecliningIsIdentity | src/output_protocol.rs:593-640 | nothing changes when every callback declines |
| OutputProtocol.CopyingIsIdentity | src/output_protocol.rs:593-640 | nothing changes when every node is replaced by the text it stands on |
| OutputProtocol.NestedSplice | src/output_protocol.rs:598-640 | of two nested replaced nodes with any others after them, the result is right if and only if the inner replacement is as long as what it replaced, and the source panics if and only if the text after the inner start gets shorter than the inner node was |
| OutputProtocol.NestedAtOneStart | src/output_protocol.rs:598-640 | with equal starts and the inner node first in the list, the outer replacement survives if and only if it begins with the inner one at the inner node's length |
| OutputProtocol.AgentMentions | src/output_protocol.rs:642-657 | the result has exactly the references of agents mentioned, each once, in the order of first mention |
| OutputProtocol.EscapesReadForward | src/output_protocol.rs:532-540 | counting backslashes backward finds an escape exactly where reading forward does |
| EntityDirectory.Context.PrioritizeEntities | src/output_protocol.rs:208-236 | the directory becomes the agent itself, its caller, then everyone else, with the first entry of each reference kept |
| EntityDirectory.FirstIsFound | src/output_protocol.rs:237-243 | a lookup finds the first entity with a reference |
| EntityDirectory.PrioritizedKeepsLookups | src/output_protocol.rs:208-243 | lookups by reference do not change and no reference is listed twice |
| EntityDirectory.PrioritizedLeads | src/output_protocol.rs:209-226 | the agent itself comes first and its caller next, if they are in the directory |
| EntityDirectory.PrioritizedKeepsOrder | src/output_protocol.rs:227-235 | all others keep their order of first appearance |
| SnapshotNames.EscapeComponent | src/model_input_store.rs:122-140 | the name is, byte by byte, the letter, digit, '-', '_' or '.' itself or a percent sign and two upper-case hex digits, and %00 for the empty id; it has no other character, so no separator and no NUL |
| SnapshotNames.EscapedIsNamed | src/model_input_store.rs:122-140 | the same of the function the laws are about |
| SnapshotNames.UnescapeEscaped | src/model_input_store.rs:122-140 | the decoder inverts the escape on every nonempty id |
| SnapshotNames.SharedNames | src/model_input_store.rs:122-140 | two ids share a name if and only if they are equal or are the empty id and a single NUL |
| SnapshotNames.NamesAreComponents | src/model_input_store.rs:96-104 | a name is nonempty and made of letters, digits, '-', '_', '.' and percent signs only, and is "." or ".." exactly if the id is |
| SnapshotStore.Store.Upsert | src/model_input_store.rs:8-36 | a save succeeds exactly if all its file operations do, and leaves the new file in place and no temporary one; a stop leaves the old snapshot and a temporary file, or only that where renaming cannot replace and the old one was already removed |
| SnapshotStore.Store.Get | src/model_input_store.rs:70-83 | a read finds the file of its session and run |
| SnapshotStore.Store.Delete | src/model_input_store.rs:85-94 | a delete removes everything under the session's directory and nothing else |
| SnapshotStore.Store.List | src/model_input_store.rs:38-68 | a listing is the contents of the directory's json files, newest first by their own time, or the file's, or none, all of them or up to the limit |
| SnapshotStore.SortKeepsItems | src/model_input_store.rs:65-67 | sorting loses and invents nothing |
| SnapshotStore.SortSorts | src/model_input_store.rs:65-67 | the listing is newest first |
| SnapshotStore.KeysAreApart | src/model_input_store.rs:96-104 | different sessions and runs have different files, and only a session's own files are in its directory |
| SnapshotStore.TemporaryIsNotSnapshot | src/model_input_store.rs:18-20 | no temporary file is ever taken for a snapshot |
| SnapshotStore.SnapshotPath | src/model_input_store.rs:96-104 | the file of a session and run is model-input-snapshots, the session's name, and the run's name with .json |
| SnapshotStore.TreeIsMap | src/model_input_store.rs:8-94 | after any upserts, stopped upserts and deletes the file found for a session and run is what a map keyed by both would hold |
| SnapshotStore.ListingIsExact | src/model_input_store.rs:38-68 | listing a session reads exactly its snapshots, no temporary file and no other session's |
| SnapshotStore.DeleteIsPrivateExactly | src/model_input_store.rs:85-100 | deleting a nonempty session id leaves all other sessions alone if and only if the id is neither "." nor ".." |

## Left out

- Network, HTTP, process and socket code, the Feishu gateway and the control socket: only what their outcomes do to the modelled state is kept.
- JSON, YAML and UTF-8: payloads are abstract or taken as parsed; a frame that does not parse and a UTF-8 error are not distinguished from other failures.
- Torn writes: writing a file and renaming it, and appending one log line, are single steps.
- `bot_core`, `a2a`, `pulldown_cmark` and the session runtime are not part of this model; their results are inputs, and the history append is idempotent by delivery id.
- Outbox.DeliveryService.Send: request size limits, session and gateway lookup, reply anchors and authentication enter as outcomes of an environment; a failed save of a record is treated as the process stopping there; the delivery UUID is required to be new.
- OutboxLaws.AtMostOnce: the provider remembers a UUID for one hour plus the bound on the delay between window check and receipt; with that bound zero, check and receipt are one instant.
- OutboxLaws.RetryIsSafeExactly: a failed record is required to carry no message id and an error that failing can leave, as ReachableRecords shows of every stored one.
- SubSessionReplay.ProjectionIsMirrored: requires that a run id belongs to one child thread within a log file; the file is read by run id alone.
- ReplayCatchUp.ReplayCatchesUp: runs of one child do not overlap and each has one start, first. If there is an earlier equal turn and the active run said nothing since, while later runs did, nothing is claimed.
- ReplyStream.ExecuteApplication: the run has been started and its events are the input; how an activity is written as data is a parameter.
- Delegation.HubGetsReply: a hub is taken to hand over the executor's stream as it is.
- Multiplex.AnswersArePrefixes: request ids are distinct, as callers draw a new UUID for each.
- TaskStore.PagesCoverMatches: the number of matching tasks is below the limit of a 64-bit size.
- TuiText.SanitizeTuiText: characters are code points; grapheme clusters and display width play no role in the source.
- ProfileRegistry.Registry.RegisterProfile: resolving the path, reading the manifest and validating the alias happen before the lock and are inputs; time stamps are part of the entry.
- RegistryRuns.FileIsReplay: lock retries end in success or in a refusal, without clocks; a lock directory removed by hand is not modelled.
- Dispatch.EveryRun: only the commands that touch the run table; a run's stream is any sequence of events, and a run that panics, which would leave its entry in the table until shutdown, is not modelled.
- EventLog.PagesFollowTheLog: an event's JSON is one line that does not end in white space and parses back; white space is that of ASCII; reading from an offset inside a line is specified but nothing more is claimed of it.
- OutputProtocol.RenderMentions: callbacks depend on the node only, not on earlier calls; text is taken byte by byte, so that offsets inside a character do not arise; nodes that partly overlap, which Markdown does not yield, are covered by the loop's contract only.
- SnapshotStore.TreeIsMap: for nonempty ids and session ids other than "." and ".."; file systems that fold case or limit name length are not modelled.
- SnapshotStore.Store.List: reading the creation time off a snapshot's text, and the files' modification times, are parameters.
- Command line, profile commands, setup, telemetry, themes and scripts: mostly copying and printing.
- Bearer tokens and path sandboxing: outside what is proved here.
