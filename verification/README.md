# Verification of the agent harness

A Dafny model of the parts of the harness that have to be right across crashes and
interleavings, and proofs about it. `dafny verify dfyconfig.toml` checks everything.

**The turn protocol.** A turn appends events around an external effect and can stop at any
append or await; recovery later closes what it left open without running anything again.
`Runtime` models one runtime as a state machine: any number of turns and recoveries, kept
apart only by the set of active threads, over one shared store. The model, tools, hooks,
approver, executor and cancellation are choices of the environment; a dropped future, an
append that failed with or without its record on disk, and a restart are moves like any
other. `TurnMachine` is the code of one turn, position by position; `LogGrammar` is an
acceptor for the logs it may write; `TurnSafety` and `TurnSteps` hold the invariant and
`RuntimeSafety` carries it over to every interleaving. `Guarantees` says what follows for
logs, executor and transcript, `Observers` what follows for notifications. `RunTurn` is the
same code as the source has it, with its loops and early returns, and proves that all it
does in one activity is a run of that machine. `Recovery` and `RecoveredLogs` treat
recovery on arbitrary logs and on orderly ones, `Transcripts` the grouping of messages.

**The event log.** `JsonlStore` reads a file byte by byte, classifies its tail, repairs it
and appends to it, over a small concrete record codec; `StoreRefinement` proves it to be the
store the runtime's runs are about.

**The task ledger.** `Ledger` folds histories into tasks; `LedgerStore` proves the
operations on live state equal to replay.

**The stream decoder.** `SseStream` is the decoder byte by byte and a reading of the whole
stream at once; `SseDecoder` the object with its fields. As the code has it, only a line
feed ends a line, all trailing carriage returns are stripped, and an unterminated last
event is dispatched when the stream ends; these points differ from sections 9.2.5 and 9.2.6
of the WHATWG HTML Living Standard.

**Byte windows.** `Utf8` is well-formedness as in sections 3 and 4 of RFC 3629; on it rest
the two pagers and patching (`Paging`) and the bounded preview (`Draft`).

**The acceptance journal.** `Acceptance` is the bounded-attempt state machine, its journal
and the completion gate.

Sequence numbers, ids, times and error texts: ids are fresh values or parameters, host times
are parameters, and the runtime's fixed messages are constructors named after what they say.
An await is a point where the future may be dropped.

## Model

| member | source | states |
|---|---|---|
| Guarantees.ThreadsKeepTheProtocol | crates/harness-core/src/runtime.rs:250-624 | in every state of every interleaved run, with dropped futures, failed appends, recoveries and restarts, each thread's log (the loaded one and the one a restart would load) has at most one open turn, at most one end per turn, at most one receipt and one execution start per accepted call and none without acceptance; no call lacks a receipt where a turn, user message, context, request or model answer is recorded, so one that does belongs to the last model message |
| Guarantees.RecoveryTouchesNoLiveTurn | crates/harness-core/src/runtime.rs:205-210 | while a task recovers a thread, no other task holds that thread |
| Guarantees.RecoveredThreadsAreClosed | crates/harness-core/src/recovery.rs:69-111 | when a recovery has appended what it planned, and before a new turn starts, every accepted call of the thread has exactly one receipt and every started turn exactly one end |
| Guarantees.ExecutorIsEnteredOnce | crates/harness-core/src/runtime.rs:598-608 | over all runs no two executor calls have the same thread, turn and call id, and at each one the start of the identical prepared action is already in the log |
| Guarantees.ReceiptedCallsAreNotEntered | crates/harness-core/src/runtime.rs:598-616 | between any two states of a run the log only grows, no executor call is forgotten or answered twice, and none is made for a call that had a receipt |
| Guarantees.ExecutionIsAuthorized | crates/harness-core/src/runtime.rs:480-604 | every executed call names a registered tool whose effective grant is not Deny; under Ask an approval of exactly the executed action is logged for the call in the same turn before its start; the grant exceeds neither the policy's nor the parent projection's |
| Guarantees.ExecutionStaysWithinAncestors | crates/harness-core/src/policy.rs:104-121 | in every run of an agent at the end of a spawn chain of any depth, an executed tool is registered and granted at least as much by every ancestor's own policy, and the grant is at most every ancestor's projection |
| Guarantees.ApprovalComesFirst | crates/harness-core/src/runtime.rs:548-604 | in a log that keeps the protocol a call's resolved approval is before its execution start |
| Guarantees.ReceiptsAreHonest | crates/harness-core/src/runtime.rs:605-616 | in every run a durable Succeeded receipt carries the output the executor returned for that very call and action; a receipt of an entered call is never Denied, Failed only with the error the executor returned, and Unknown only because the executor said so or recovery found a start without a receipt |
| Guarantees.RecoveredFailuresWereNeverEntered | crates/harness-core/src/recovery.rs:75-99 | a Failed receipt appended by recovery is for a call the executor was not entered for, before or ever after |
| Guarantees.TranscriptIsReplay | crates/harness-core/src/runtime.rs:276-451 | everywhere in the model loop and the loop over calls the incrementally kept transcript is what a replay of the durable log reconstructs |
| Guarantees.ModelSeesWholeExchanges | crates/harness-core/src/runtime.rs:284-299 | for any group limit, the messages compiled at a loop head are a suffix, cut between groups, of that replay; each group is a user message or an assistant message with exactly one receipt for each of its calls; omitted and kept groups together are all |
| RuntimeSafety.MovesKeepExclusive | crates/harness-core/src/runtime.rs:659-671 | every move of the system keeps a thread active exactly while one task holds it, and never two |
| RuntimeSafety.MovesSimulateSteps | crates/harness-core/src/runtime.rs:756-765 | whatever task moves, each single thread makes one step of the turn machine or none: interleaving on the shared store adds no behaviour |
| RuntimeSafety.RunsAreSafe | crates/harness-core/src/runtime.rs:192-624 | every state of every run has the exclusive guard, the store's latch over a landed record, and the turn invariant for each thread; what this means for logs and the executor is stated by the `Guarantees` rows |
| TurnSteps.StepKeepsInv | crates/harness-core/src/runtime.rs:250-624 | each step of a thread (an append with any fate, an executor call or answer, a dropped future, another thread's failure, a restart) keeps the turn invariant |
| LogGrammar.ReceiptClosure | crates/harness-core/src/runtime.rs:421-451 | in an orderly log, where a turn starts, a user message or request is recorded or the model answers, each call has as many receipts as acceptances, at most one |
| LogGrammar.UnreceiptedCallsAreLast | crates/harness-core/src/runtime.rs:437-452 | in an orderly log nothing that needs closed exchanges comes after the model message of a call without a receipt |
| LogGrammar.ExecutionIsPrepared | crates/harness-core/src/runtime.rs:517-604 | in an orderly log an execution start follows the preparation of the identical action in the same turn, is the call's first, and comes before the turn's end |
| Recovery.RecoveryResumes | crates/harness-core/src/recovery.rs:26-111 | on any log at all, a recovery stopped after k of its appends and run again appends exactly the rest, in the same order |
| Recovery.RecoveryIsIdempotent | crates/harness-core/src/recovery.rs:26-111 | on any log at all, a recovery after a finished one appends nothing |
| Recovery.RecoveredReceiptsAreHonest | crates/harness-core/src/recovery.rs:75-90 | on any log, recovery never writes Succeeded or Denied, nor a second receipt; it writes Unknown exactly if an execution start of the call is logged, with the started action, and Failed otherwise |
| RecoveredLogs.RecoveryKeepsLogsLegal | crates/harness-core/src/recovery.rs:91-111 | wherever recovery of an orderly log stops, the log is orderly and has the same turns |
| RecoveredLogs.RecoveryClosesEverything | crates/harness-core/src/recovery.rs:69-111 | after a finished recovery every call ever accepted has exactly one receipt and every turn one end |
| RunTurn.Activity.Scan | crates/harness-core/src/recovery.rs:31-62 | the pass over the events collects exactly the facts the plan is made of |
| RunTurn.Activity.RecoverThread | crates/harness-core/src/recovery.rs:22-112 | the loops over keys and open turns append the plan record by record; the report lists exactly what was appended, or a failed append stops them in the plan |
| RunTurn.RecoverGuarded | crates/harness-core/src/runtime.rs:205-227 | an explicit recovery leaves an unknown or held thread and the store untouched and says which it was; otherwise it is exactly one activity of the turn machine, appends and reports exactly the plan, or stops in it at a refused append and says that the store failed; observers are told of exactly what a finished one recorded, from the sequence threshold on; the guard is given back, other threads keep their records |
| Observers.ObserversHearTheLog | crates/harness-core/src/runtime.rs:212-227 | in every state of every run: over all restarts observers were told of each acknowledged event at most once and in log order; of all events recorded since the last restart, if no append failed since, exactly once, except for those a recovery still in progress has recorded and publishes from its sequence threshold when done |
| Observers.StretchesBeginAtRestarts | crates/harness-core/src/runtime.rs:756-771 | at a restart the log found is below the new stretch, which begins with nothing told and no failure; every other move only extends log and notifications |
| RunTurn.RunGuarded | crates/harness-core/src/runtime.rs:250-260 | a turn on an unknown or held thread touches nothing and says which it was; any other is exactly one activity of the turn machine from the guard's acquisition on; its result is the content if the last record completes the turn with it, and otherwise the error that tells how the activity ended; observers are told of everything it recorded, in order, if it got past recovery, and of nothing otherwise; the guard is given back, other threads keep their records |
| RunTurn.Activity.Run | crates/harness-core/src/runtime.rs:250-467 | however the environment answers, the loops end with the activity over, every step they took being one the turn machine allows there; a refused append is reported as a store failure, exactly the lost receipt of an answered executor call as possibly having changed external state, a dropped future as such, and every other error is the one the log's last event records |
| RunTurn.Activity.TakeUp | crates/harness-core/src/runtime.rs:257-260 | a turn id is reported as a duplicate exactly if the log uses it; otherwise the whole recovery plan is in the log, and published, before the turn may start |
| RunTurn.Activity.CompileContext | crates/harness-core/src/runtime.rs:285-326 | from a loop head the activity is over with the error that ended it, or the context and the request are recorded in this order and the model is being asked |
| RunTurn.Activity.AwaitModel | crates/harness-core/src/runtime.rs:328-374 | an error, a cancellation, a dropped future or an unusable answer ends the activity and is told; a usable answer is recorded before it is acted on, and its ids count as seen |
| RunTurn.Activity.ActOn | crates/harness-core/src/runtime.rs:378-451 | a response is rejected with receipts for all its calls, completes the turn, or has all its calls handled with the transcript grown by their receipts |
| RunTurn.Activity.HandleToolCall | crates/harness-core/src/runtime.rs:469-624 | handling a call ends with its receipt recorded and its place in the loop advanced, or with the activity over; each branch is the one the turn machine has for the call's registration, grant, preparation, hooks and approval |
| RunTurn.Activity.AuthorizeCall | crates/harness-core/src/runtime.rs:536-604 | the start is recorded only behind hooks and, under Ask, an approval; otherwise the denial receipt is |
| RunTurn.Activity.Execute | crates/harness-core/src/runtime.rs:598-622 | the executor is called behind the recorded start, and its answer decides the receipt that is recorded before the after-tool hooks; the error is that the receipt's persistence is unknown exactly if the executor answered and the store refused the receipt |
| Activities.LostReceiptsWereAnswered | crates/harness-core/src/runtime.rs:710-735 | an activity that ends with a lost receipt has called the executor for that very action last, and was answered |
| RunTurn.Activity.CancelTurn | crates/harness-core/src/runtime.rs:673-694 | unhandled calls are denied in order, then the turn is cancelled; the error is the cancellation, or a store failure if an append was refused |
| RunTurn.ActiveThreads.Acquire | crates/harness-core/src/runtime.rs:659-671 | acquiring succeeds exactly for a thread nobody holds, and then holds it |
| Protocol.ValidateToolCalls | crates/harness-core/src/runtime.rs:810-830 | gives the error of the first call with a blank id, blank name or reused id, and none exactly if all calls are usable with ids new to the turn |
| Policy.ChainIsStrictest | crates/harness-core/src/policy.rs:104-121 | through a chain of projections of any depth a tool has a grant exactly if every agent registers it and every policy grants as much |
| Policy.ChainNeverWidens | crates/harness-core/src/policy.rs:104-121 | no agent of a chain holds more than any of its ancestors' projections |
| Transcripts.CompactTranscript | crates/context-fs/src/lib.rs:214-242 | for any messages: the last `maximum` groups are kept, and the omitted ones followed by the kept ones are the messages |
| Transcripts.WindowsAreWellFormed | crates/context-fs/src/lib.rs:214-242 | for the transcript of any closed orderly log every window consists of complete exchanges and regroups to itself |
| Journal.EventStore.LoadThread | crates/harness-core/src/store.rs:243-251 | loading gives exactly the acknowledged records of the thread, in order |
| RecordCodec.EncodingDecodes | crates/harness-core/src/store.rs:229-234 | every encoded record decodes to itself, with and without its line feed, and holds no line feed |
| RecordCodec.PartIsIncomplete | crates/harness-core/src/store.rs:130-136 | no proper prefix of an encoded record decodes or is corrupt: it is incomplete |
| JsonlStore.CutLogOpens | crates/harness-core/src/store.rs:121-189 | a log cut at any byte of one more record opens to exactly the records before it, and to that one too if only its line feed is missing; the cut bytes are archived exactly and the file is left terminated and sound |
| JsonlStore.OpeningIsStable | crates/harness-core/src/store.rs:147-201 | whatever bytes a file held, if it opens, what opening leaves opens to the same events and next number without another repair, ends with a line feed, and with the archived bytes is the file that was found (but for one restored line feed) |
| JsonlStore.SortIsStable | crates/harness-core/src/store.rs:184-184 | events come out in the order of their numbers, equal numbers in file order |
| EventLogs.OpenStore | crates/harness-core/src/store.rs:105-201 | the scanning loop and the repair leave exactly what the specification of opening says; a corrupt line changes nothing; an I/O error leaves the file as it was, with at most a part of the torn tail in the archive, or fully repaired with the whole tail archived |
| JsonlStore.InterruptedOpeningsLoseNothing | crates/harness-core/src/store.rs:147-176 | however many openings are interrupted, and wherever, the next one finds the same events and next number, archives only grow, and a torn tail that was cut off is in the archive whole |
| EventLogs.EventLog.Append | crates/harness-core/src/store.rs:216-241 | an append writes the whole record and its line feed under the next number, or leaves any part of it and latches the store; a latched store refuses and writes nothing |
| EventLogs.ReopeningLosesNothing | crates/harness-core/src/store.rs:105-201 | however the store was stopped, opening its file gives back every acknowledged event and besides exactly the one in flight if its record is complete, under a next number above all |
| EventLogs.NumbersKeepRising | crates/harness-core/src/store.rs:184-189 | numbers rise with every append, also over a reopening |
| StoreRefinement.Append | crates/harness-core/src/store.rs:216-241 | on every file the store opens, whatever its numbers, an append of the file store is an append of the store the runtime's runs are about: acknowledged, refused, latched, or landed behind the latch |
| StoreRefinement.Reopen | crates/harness-core/src/store.rs:105-201 | opening that file again is the restart of that store, landed record included |
| Ledger.HistoriesAreOrderly | crates/task-ledger/src/lib.rs:552-640 | after every history each task is running exactly while leased, has a result exactly if it succeeded, an error exactly if it failed, was cancelled or is unknown, is awaiting delivery only once ended, and keys are distinct |
| Ledger.ExpiredLeasesAreFenced | crates/task-ledger/src/lib.rs:481-510 | over every history with a non-decreasing host clock, once a running task's lease has expired only cancellation or marking it unknown (and then acknowledgement) is ever logged for it; no heartbeat, success or failure |
| Ledger.FencedSince | crates/task-ledger/src/lib.rs:481-510 | the same from any time on at which the lease was found expired, if later records are not before that time |
| Ledger.ClockStaysRising | crates/task-ledger/src/lib.rs:287-442 | operations called at times that do not go back keep the recorded host times from going back |
| LedgerStore.LateWorkersAreRefused | crates/task-ledger/src/lib.rs:481-510 | on a consistent ledger with a non-decreasing host clock, a task whose lease was once found expired refuses heartbeat, success and failure from every token at every time the clock can still show |
| Ledger.EndsAreFinal | crates/task-ledger/src/lib.rs:624-640 | status, result and error of an ended task never change again, and nothing does after acknowledgement |
| Ledger.ClaimedAtMostOnce | crates/task-ledger/src/lib.rs:287-316 | over every history a task is claimed at most once, and its attempt counts its claims |
| Ledger.HeartbeatsExtend | crates/task-ledger/src/lib.rs:318-342 | a logged heartbeat found the lease live and strictly raised its end, changing nothing else of the claim |
| Ledger.ClaimsAreLive | crates/task-ledger/src/lib.rs:287-316 | a claim grants a live lease exactly if the clock is below its maximum: at the maximum the saturating addition grants an expired one |
| LedgerStore.ReplayIsLiveState | crates/task-ledger/src/lib.rs:201-242 | the live tasks, index and next number are the ones any replay of the log gives |
| LedgerOperations.TaskLedger.Open | crates/task-ledger/src/lib.rs:201-242 | any log is replayed, or refused with the first task an event names that nobody submitted; the index leads to the last task in id order under each key and the next number is above all; on a log the operations wrote the result is consistent with it |
| LedgerOperations.TaskLedger.Submit | crates/task-ledger/src/lib.rs:249-285 | a new key stores one new task and logs it; a known key changes nothing and returns the task stored under it; a failed write changes nothing |
| LedgerOperations.TaskLedger.ClaimNext | crates/task-ledger/src/lib.rs:287-316 | claims the pending task created first, ties by id, for exactly the requested (saturated) time from now, with now recorded as its host time; none exactly if none is pending; a failed write changes nothing |
| LedgerOperations.TaskLedger.Heartbeat | crates/task-ledger/src/lib.rs:318-342 | is refused, changing nothing, exactly if token, attempt or liveness do not fit or the end does not rise; otherwise logs exactly that at the host time given, or fails to write and changes nothing |
| LedgerOperations.TaskLedger.Finish | crates/task-ledger/src/lib.rs:344-392 | success and failure need the current claim with a live lease and are logged at the host time given; a refusal or a failed write changes nothing |
| LedgerOperations.TaskLedger.RecoverExpired | crates/task-ledger/src/lib.rs:416-442 | marks exactly the tasks whose lease has expired, once each in id order at the host time given, and changes no other; a failed write stops it with the rest unmarked |
| LedgerOperations.TaskLedger.CancelTask | crates/task-ledger/src/lib.rs:394-412 | cancels exactly tasks that have not ended, at no new host time; a refusal or a failed write changes nothing |
| LedgerOperations.TaskLedger.AcknowledgeDelivery | crates/task-ledger/src/lib.rs:444-457 | acknowledges exactly tasks awaiting delivery, at no new host time; a refusal or a failed write changes nothing |
| SseStream.ChunkingIsIrrelevant | crates/provider-openai/src/stream.rs:30-50 | any chunking of a byte stream leads to the same state, texts and error as the stream in one piece |
| SseStream.DecoderReadsStream | crates/provider-openai/src/stream.rs:30-80 | for any chunking the decoder stands where a whole-stream reading ends that splits on line feeds, strips carriage returns, joins data lines and dispatches on blank lines: same response and texts, same first error, same unfinished event and line; there is such a reading, and all agree |
| SseStream.StreamSplits | crates/provider-openai/src/stream.rs:35-42 | every stream is lines and an unterminated rest |
| SseStream.SplitIsUnique | crates/provider-openai/src/stream.rs:35-42 | a stream is lines and an unterminated rest in one way only |
| SseStream.BuffersAreBounded | crates/provider-openai/src/stream.rs:44-63 | without an error neither the pending line nor the event's data exceeds 1 MiB |
| SseGuarantees.ResponsesAreWhole | crates/provider-openai/src/stream.rs:171-196 | however a stream arrives, if finishing succeeds the marker and a finish reason were seen, the texts told to the callback are the whole content, calls are numbered without a gap from 0, and each call's id, name and arguments are its own fragments in order |
| SseDecoder.Decoder.Push | crates/provider-openai/src/stream.rs:30-50 | the byte loop over the decoder's fields computes that state and stops at the first error |
| SseDecoder.Decoder.TakeText | crates/provider-openai/src/stream.rs:51-68 | a blank line dispatches, data lines are gathered within bounds and not after the marker, other lines are ignored |
| SseDecoder.Decoder.DispatchData | crates/provider-openai/src/stream.rs:69-170 | what was gathered is cleared and taken as marker or frame, with the first error there is |
| SseDecoder.Decoder.End | crates/provider-openai/src/stream.rs:171-196 | an unterminated last line and event are taken, then the response is given exactly if it is complete |
| Utf8.BoundaryCuts | crates/executor-process/src/editing.rs:151-156 | a position of valid UTF-8 that does not look like the inside of a character cuts it into two valid texts |
| Utf8.OccurrenceIsAligned | crates/executor-process/src/editing.rs:299-312 | a valid text found in a valid text is found between characters |
| Paging.ReadFilePage | crates/executor-process/src/editing.rs:133-160 | the walk back from the limit gives a page exactly for a readable file, a limit of 4..16384 and an offset between characters; the page ends at the last boundary within the limit and the next offset is its end unless that is the file's |
| Paging.PagesAreLongest | crates/executor-process/src/editing.rs:151-156 | a page is the longest well-formed text within its limit |
| Paging.PagesProgress | crates/executor-process/src/editing.rs:144-157 | a page is whole characters and, unless it reaches the end, falls short of its limit by at most three bytes |
| Paging.PagersAgree | crates/context-fs/src/output.rs:140-164 | on valid content the forward-decoding pager accepts exactly the offsets between characters and gives the page the backward walk gives |
| PageRuns.OutputPagesReconstruct | crates/context-fs/src/output.rs:133-164 | following the archive's pages from 0 with any allowed limits gives non-empty valid pages that make up valid content exactly, at most the bytes divided by the least limit less three, rounded up |
| PageRuns.FilePagesReconstruct | crates/executor-process/src/editing.rs:133-160 | the same for the file reader up to its own limit of 16384 |
| PageRuns.OutputCompletesIffValid | crates/context-fs/src/output.rs:133-164 | following the archive's pages gets to the end exactly for valid content |
| PageRuns.FileCompletesIffText | crates/executor-process/src/editing.rs:133-160 | following the file reader gets to the end exactly for valid files within the size limit |
| Paging.CeilingIsLeast | crates/context-fs/src/output.rs:133-164 | the page bound is the least number of pages of that size that hold the bytes |
| Patching.PreparePatch | crates/executor-process/src/editing.rs:299-330 | succeeds exactly if sizes are legal, the file is readable, the old text occurs at exactly one byte position (overlaps count) and the result fits; the result is prefix, new text, suffix and valid; the two refusals mean no occurrence, and two |
| Patching.ExecutePatch | crates/executor-process/src/editing.rs:331-366 | on an unchanged file success leaves exactly the prepared content; on a changed one nothing is written; a failure in between leaves a partly overwritten file and says the outcome is unknown |
| Draft.PreviewIsTail | crates/tui/src/progress.rs:39-57 | however a text is cut into deltas, appending them one at a time to the bounded buffer leaves the longest character-aligned end of the whole within 65536 bytes |
| Draft.AppendBounded | crates/tui/src/progress.rs:74-86 | appends and drops from the front up to the first boundary within the bound |
| ProgressBuffer.Buffer.OnProgress | crates/tui/src/progress.rs:35-72 | the draft shows the end of all deltas of the current request since it was last taken; the last 16 finished requests are kept; each adds one line to the metrics file, if there is one, or a part of it and reports the error |
| Acceptance.JournalsAreBounded | crates/task/src/lib.rs:302-397 | every replayable journal has at most 1 + 2 * max_attempts records; evidence has distinct turns and is the gate's verdict on its own artifacts; Succeeded holds exactly if the last evidence passes with no unknown outcome, BudgetExhausted exactly if the last allowed attempt was verified and failed |
| Acceptance.ApplyKeeps | crates/task/src/lib.rs:330-397 | every allowed event keeps that and strictly lowers a measure of what can still happen |
| Acceptance.EndedAllowsNothing | crates/task/src/lib.rs:330-397 | an ended task allows no event |
| Acceptance.GateIsExact | crates/task/src/lib.rs:60-76 | the gate passes a criterion exactly if there is one snapshot of its artifact with the expected content |
| AcceptanceJournal.TaskJournal.Create | crates/task/src/lib.rs:198-212 | a valid specification gives the initial state or an I/O error, an invalid one none |
| AcceptanceJournal.TaskJournal.Open | crates/task/src/lib.rs:214-241 | a file opens, or fails to be read or opened for writing, if it is terminated and its lines are this version's records numbered from 0 that replay, and is refused otherwise; the state is the replay |
| AcceptanceJournal.TaskJournal.Transition | crates/task/src/lib.rs:275-300 | a transition is recorded and applied, or leaves the state unchanged; one that is not allowed writes nothing; a failed write closes the journal, whose file then holds the attempted event's record whole, in part or not at all |
| AcceptanceJournal.FailedWritesReopen | crates/task/src/lib.rs:214-300 | after a failed write the file opens exactly if no part of a record is left at its end, to the state before the attempt or the one the attempted event leads to |

## Left out

- serde_json: the log has its own small codec with the two properties the store relies on (no line feed in a record, no proper prefix decodes or looks corrupt), and stream data is parsed by a parameter of the decoder; nothing is proved about JSON syntax.
- u64 sequence numbers and offsets are unbounded naturals, so their overflow is not modelled; the ledger's saturating lease end is.
- Event ids and time stamps, token usage in model responses, prompt segments, hook names and tool metadata are not part of the events.
- Waking and polling of futures, mutex poisoning and cross-process sharing of a log, which the code excludes by exclusive ownership.
- RunTurn.RunGuarded: one activity at a time on the store object; interleaving with others is the subject of `Runtime`. The number of model iterations in an outcome is not returned, and the threshold for publishing is read when the guard is taken.
- Observers.ObserversHearTheLog: after a failed append, and until the next restart, only at-most-once and order are claimed, as events of an interrupted recovery may then never be published.
- RunTurn.Activity.Execute: that an executor is really not called on other paths is a property of the turn machine's history of calls; the executor itself is a choice of the environment.
- SseDecoder.Decoder.Push: after an error the fields that a partly applied frame changed are described as the model leaves them; the caller discards the decoder then.
- LedgerStore.ReplayIsLiveState: is about the log of acknowledged records. What a failed write leaves in the file is not modelled, nor torn ledger files: the ledger has no failure latch, and a later append lands behind whatever is there.
- LedgerOperations.TaskLedger.Submit: a fresh id is assumed not to be in use, as the code assumes of its generated ids.
- Patching.ExecutePatch: paths, symbolic links and permissions are not modelled; a file is its bytes, and what synchronising to disk guarantees is not stated.
- JSON lines of the acceptance journal are abstract records or unreadable lines, and its file is lines and a torn rest.
- Skill scanning, rule files, request budgets, archive retention and externalised receipts, file search, argument parsing of tools: file-system dependent or single-branch.
- Network, process, terminal, JSON-RPC and evaluation code: foreign calls and interface plumbing.
