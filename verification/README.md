# Proofs about the agent's concurrency and persistence core

This project models the parts of the agent in which interleaving, faults and durable state
meet, and proves what they promise. Every section of code between two suspension points is
one step; interrupts, store failures, broken writes, foreign edits and crashes are steps too.
A class holds the fields that the program updates in place, its methods carry the program's
branches and are proved equal to a step function on the whole state, and the theorems about
those functions quantify over all inputs, all reachable states or all runs. They say what can
never happen, and also what does happen: which steps lead from any reachable state to the
receipt, the answer, the recovered message or the finished close.

| file | what it models |
|---|---|
| `ChatLane.dfy`, `LaneTable.dfy` | the per-chat ticket lock with passive priority, and the table that drops idle lanes |
| `InboundStore.dfy`, `Handoff.dfy`, `HandoffAnswers.dfy`, `HandoffPaths.dfy`, `Recovery.dfy` | durable mobile handoffs: rows, admissions, session leases, envelopes, shutdown, what each answer means and leaves alone, the courses one message can take, and the recovery scan amid everything else |
| `Outbound.dfy`, `OutboundMarks.dfy` | the outbound queue, its one worker, receipts and close; the queue and a chat lane side by side |
| `FrameBook.dfy`, `FrameAnswers.dfy`, `FramePaths.dfy` | control frame routes, staged replacements, claims, pages and waiters, what each operation answers and leaves alone, and how a wait gets its answer |
| `Lifecycle.dfy`, `LifecycleFields.dfy`, `RestartGate.dfy`, `RestartRun.dfy` | the supervisor's frame parser, what authorises a restart told in the fields of the frames, the channel that writes to it, the restart gate, and a restart from the gate to the supervisor's verdict |
| `Codec.dfy` | message bodies, frozen JSON and their stored text |
| `MessageLog.dfy`, `Effects.dfy`, `Calls.dfy` | writers with grants, idempotent replay, owner transactions with compare-and-swap, when a write is taken and what it changes, and which tool calls wait for a result |
| `Readers.dfy`, `Follower.dfy` | snapshots, pages, the incremental reader, followers woken by commits |
| `Backup.dfy` | tree copy, manifest, verification and restore |
| `History.dfy` | history units and bounded tool results |
| `Text.dfy`, `Wrappers.dfy` | stripping and decimal text; `Option` and `Result` |

`dafny verify dfyconfig.toml` checks all of it.

## Where the code falls short

In these places a promise does not hold on every input. The code is modelled as it is; a
lemma gives a run that shows the failure, and another says exactly when the promise holds.

- A lane whose send counter was lowered by a done mark without a pending mark stays locked
  after the running passive send ends (`UnmatchedDoneLocksLane`). A leaving sender frees the
  lane if and only if a send is still counted (`PassiveLeaveFreesIffCounted`); it always is
  when each done mark follows its own pending mark (`DisciplinedRunsStayBalanced`), and the
  outbound queue sees to that (`QueueKeepsDiscipline`).
- A done mark that is cancelled while it waits for the lane's lock is not made, and the lane
  counts that send from then on (`CancelledDoneKeepsCount`), which keeps non-passive calls out
  (`CountedSendBlocks`). Marks stay open beyond the queued deliveries exactly for such
  cancelled done marks (`QueueKeepsDiscipline`).
- A prepare of a handoff that recovery has claimed does not look whether an envelope is bound
  already, and so can leave two envelopes on one handoff
  (`LivePrepareDuringRecoveryBreaksInverse`; exactly when: `BindKeepsInverseIffClean`).
- A close that fails or is cancelled between the durable delete and the release leaves an
  admission, and its lease, without a row (`CancelledCloseStrandsAdmission`; exactly then:
  `RowsKeptIffCloseWorks`). It stays so until the shutdown drain, a crash or a new row under
  its id (`StrandedStep`).
- A close whose cancelled worker ends in an error, or whose inbound drain raises, never drains
  the outbound queue, and the queued deliveries get no receipt
  (`ProviderErrorDuringCloseStrandsQueue`; exactly when: `CloseAbortsExactlyOnError`,
  `EndedCloseAnswersIffQueueEmpty`).
- A stage whose page write broke can still be committed and then replaces a live route
  (`DeadStageReplacesLiveRoute`; exactly when: `CommitInstallsDeadRouteIffStageGone`). Waits
  on it still end with its error.
- The incremental reader misses an own append that is numbered at or below the rows it keeps,
  which a foreign edit of the session's counter makes possible (`LowOwnAppendGoesUnseen`;
  exactly when: `OwnAppendKeepsGoodIffAbove`, `OwnAppendIsSeenIffAbove`). Moreover the plain
  reader refuses `after_seq` below -1 on a range it has to enter, and the incremental one does
  not (`GoodMeansPlain`).
- A commit that was woken does not look at the gate again, so a request aborted meanwhile is
  still sent (`AbortedRequestIsCommitted`; exactly when a preparation still stands:
  `StandsIffNeverAborted`). It also leaves the committed flag behind (exactly then:
  `FlagFitsIffFresh`), and a request prepared with the flag set is accepted and never sent
  (`NextRequestIsNeverSent`).
- Two commits of one request that wait together are both sent, and the supervisor then refuses
  the restart (`TwoWaitersSendTwice`). A standing request is sent twice exactly when a commit
  resumes after it was sent (`SentOnceIffUnsent`), and the restart is authorised exactly when
  one commit was sent in all (`RestartsIffSentOnce`).
- Replays compare stored texts, which tell apart bodies that Python calls equal: 1, 1.0 and
  true, or 0.0 and -0.0 (`EqualBodiesTwoTexts`; exactly when: `SameTextIffEqualAlike`).
- Updates of session metadata compare the other way, with `!=` on the dictionaries: a message
  that sets a key from 1 to true is taken and 1 stays, unless another key changes with it
  (`EqualUpdateIsDropped`; exactly when: `DroppedIffIdle`).

## Assumptions

- A caller is not cancelled a second time while its `finally` waits for the lane's lock.
- Waiting for the outbound queue with a timeout loses no item when it times out or is
  cancelled.
- An inbound envelope is a token with an owner and a `close` that works, fails or is cancelled;
  deleting a lease row succeeds.
- One connection writes the message log in a process, and SQLite's `data_version` changes if
  and only if another connection commits.
- A SHA-256 digest stands for the content it was made from.
- Sources of a backup keep still while they are copied, and permissions do not stop the copy.
- Routes, pages, claims, envelopes and queued items are told apart by numbers; a new object
  gets a new number.
- The frame parser is any function from bytes to parsed frames, and for the channel writer one
  that reads back the frames the writer made.

## Model

| member | source | states |
|---|---|---|
| `ChatLane.LaneState.SkipCancelled` | bus/queue.py:322-325 | The loop moves the serving number past cancelled tickets, exactly as `Skip`; see `SkipStopsAtLive` for what that means. |
| `ChatLane.LaneState.RunMark` | bus/queue.py:327-365 | A mark raises or lowers its own counter, never below zero, and touches nothing else of the lane. |
| `ChatLane.LaneState.RunPassiveEnter` | bus/queue.py:367-387 | A passive call registers its own count, or needs one that is already there, and starts only on a lane that is not sending. |
| `ChatLane.LaneState.RunPassiveTry` | bus/queue.py:386-390 | A woken passive waiter takes the lane exactly when no send runs. |
| `ChatLane.LaneState.RunPassiveLeave` | bus/queue.py:391-406 | Leaving gives back the one owned count and frees the lane; with the count gone it raises and leaves the lane sending. |
| `ChatLane.LaneState.RunNonPassiveEnter` | bus/queue.py:408-430 | A non-passive call draws the next ticket, skips cancelled ones, and starts or waits. |
| `ChatLane.LaneState.RunNonPassiveTry` | bus/queue.py:424-432 | A woken non-passive waiter starts exactly on its serving ticket with no send and no passive work. |
| `ChatLane.LaneState.RunNonPassiveLeave` | bus/queue.py:433-445 | A sender hands the serving number on; a caller that never sent leaves its ticket in the cancelled set. |
| `ChatLane.SkipStopsAtLive` | bus/queue.py:322-325 | Skipping drops exactly the consecutive cancelled tickets at the front and stops at the first that is not cancelled. |
| `ChatLane.StepKeepsInv` | bus/queue.py:327-445 | Every section of every call, and every interrupt, keeps the ticket invariant. |
| `ChatLane.RunsKeepInv` | bus/queue.py:327-445 | The ticket invariant holds in every state of every interleaving. |
| `ChatLane.TicketsSplit` | bus/queue.py:408-445 | In every reachable state a ticket lies in [serving, next) exactly when it is either cancelled or held by one caller, never both; serving is not cancelled. |
| `ChatLane.OneSender` | bus/queue.py:384-445 | At most one caller occupies a lane; while it does, the lane is marked sending, and a non-passive one holds the serving ticket. |
| `ChatLane.NonPassiveStartsAlone` | bus/queue.py:424-432 | A non-passive send starts only on the serving ticket, with no passive turn or send counted and nobody else sending. |
| `ChatLane.NonPassiveSendsStartInTicketOrder` | bus/queue.py:408-445 | Of two non-passive sends in a run, the earlier start has the smaller ticket. |
| `ChatLane.TurnsCountMarks` | bus/queue.py:327-344 | In every run the lane counts exactly the announced turns: pending marks run, less done marks that found one. |
| `ChatLane.NonPassiveWaitsForTurns` | bus/queue.py:327-432 | No non-passive send starts while an announced turn is not done. |
| `ChatLane.QuietLaneHasReadyWaiter` | bus/queue.py:367-445 | If everybody inside a free lane is parked and no passive work is announced that has no waiter, some waiter can proceed. |
| `ChatLane.ServedWaiter` | bus/queue.py:408-445 | With only non-passive callers parked in a quiet lane, the one holding the serving ticket is there and has been notified. |
| `ChatLane.DisciplinedRunsStayBalanced` | bus/queue.py:346-406 | When every done mark and registered send is backed by a pending mark, the send counter is always the pending marks plus the owning callers, and a sending lane has its sender. |
| `ChatLane.DisciplinedLaneNeverHangs` | bus/queue.py:346-445 | In such runs, once no mark is open, parked callers always include one that can proceed. |
| `ChatLane.PassiveLeaveFreesIffCounted` | bus/queue.py:391-406 | A finished passive send frees its lane if and only if a send is still counted when it leaves. |
| `ChatLane.UnmatchedDoneLocksLane` | bus/queue.py:355-406 | A concrete run: a done mark without its pending mark takes a running send's count, and the lane stays sending with nobody inside. |
| `LaneTable.ChatLanes.AcquireState` | bus/queue.py:291-302 | The state of a key is reused or made fresh, its user count goes up by one, and every other lane is unchanged. |
| `LaneTable.ChatLanes.ReleaseState` | bus/queue.py:304-320 | The user count goes down, and the entry is removed exactly when the lane is idle and the entry is this very state. |
| `LaneTable.SkipCommutes` | bus/queue.py:322-325 | Skipping commutes with renumbering all tickets by a constant. |
| `LaneTable.StepCommutes` | bus/queue.py:291-445 | Every step of a lane commutes with renumbering its tickets; the same steps are possible. |
| `LaneTable.DroppableIsShiftedIdle` | bus/queue.py:304-320 | A reachable lane that may be dropped is a fresh lane with its tickets moved up by n: nothing else is lost. |
| `LaneTable.RunsStayRelated` | bus/queue.py:291-320 | After any calls the table that deletes idle states and one that never deletes allow the same next calls and stay related lane by lane. |
| `LaneTable.DroppingIsUnobservable` | bus/queue.py:291-320 | Both tables accept exactly the same call sequences and leave every caller in the same observable phase. |
| `LaneTable.LiveStateIsUnique` | bus/queue.py:291-320 | Callers inside one (channel, chat) always share one state object, and it is the one in the table. |
| `LaneTable.TableKeepsNoIdleState` | bus/queue.py:304-320 | No idle state stays behind in the table in any reachable state. |
| `Lifecycle.LifecycleState.FeedBytes` | agent/supervisor.py:108-125 | The in-place loop over the buffer computes `Feed`, the value the stream theorems are about. |
| `Lifecycle.LifecycleState.AcceptRaw` | agent/supervisor.py:127-199 | One frame is checked and applied as `Accept`, for all four kinds and every refusal. What is checked, told in the fields: `LifecycleFields.AuthorisedInFields` and `FirstMisfitDecides`. |
| `Lifecycle.LifecycleState.ReadToEof` | agent/supervisor.py:591-609 | Draining the dead child's pipe feeds every chunk until a read would block, the stream ends or the budget is passed, and stops at nothing else; the end of stream is fed exactly at an empty read, and past the budget the commit is refused. |
| `Lifecycle.FeedInTwo` | agent/supervisor.py:108-125 | From any state, feeding two chunks gives what feeding their concatenation gives. |
| `Lifecycle.FeedAllIsOneFeed` | agent/supervisor.py:108-125 | Feeding any list of chunks gives what one feed of all the bytes gives. |
| `Lifecycle.ChunkingIsUnobservable` | agent/supervisor.py:96-148 | Two ways to cut one byte stream end with the same ready flag, pid, stage, settings results, error and `commit_valid`. |
| `Lifecycle.ErrorNeverClears` | agent/supervisor.py:108-148 | A protocol error is kept by every later feed, or replaced by the oversize error; it never clears. |
| `Lifecycle.ScriptIsAccepted` | agent/supervisor.py:127-199 | Stages in time order, then one ready, then settings receipts around one commit are accepted without error, and the flags tell how far they got. |
| `Lifecycle.AcceptedIsScript` | agent/supervisor.py:127-199 | Conversely, whatever lines are accepted without error have that form. |
| `Lifecycle.ScriptIsRecorded` | agent/supervisor.py:150-199 | An accepted stream leaves the pid of its ready frame, the name of its last stage, and every settings result in order. |
| `Lifecycle.CommitValidIffAuthorised` | agent/supervisor.py:96-199 | At end of stream, however it was cut, `commit_valid` holds if and only if the stream is whole frames of this boot with one ready before one commit carrying the nonce and nothing out of place. `LifecycleFields.AuthorisedInFields` says it in the fields of the frames. |
| `LifecycleFields.AuthorisedInFields` | agent/supervisor.py:96-199 | However the stream was cut, `commit_valid` holds at its end if and only if it ends with a whole line and its lines, each of this boot and within 4096 bytes, are stages with a name at times that never fall, one ready with a positive pid, then settings receipts with at most 2048 bytes of detail around one commit whose request id is trimmed and whose nonce is the boot's. |
| `LifecycleFields.AuthorisedByOneCommit` | agent/supervisor.py:176-185 | An authorised stream has exactly one commit frame; it is of this boot, its request id is trimmed and its nonce text is the boot's. |
| `LifecycleFields.FirstMisfitDecides` | agent/supervisor.py:108-199 | The first line out of place decides the error, with its own reason, whatever follows and however the stream was cut. |
| `LifecycleFields.ForeignNonceIsRefused` | agent/supervisor.py:176-185 | A stream that holds a commit frame with another nonce is never authorised, and if that frame is the first thing out of place the error is the commit one. |
| `Lifecycle.CommitChannel.Stage` | agent/restart.py:214-227 | A stage frame carries the stripped name and the clock; blank names are refused and oversized frames are not written. |
| `Lifecycle.CommitChannel.Ready` | agent/restart.py:229-240 | A ready frame carries the pid, which must be positive. |
| `Lifecycle.CommitChannel.CommitOpaque` | agent/restart.py:196-200 | A commit frame carries a request id that is non-empty and already stripped. |
| `Lifecycle.CommitChannel.WriteFrame` | agent/restart.py:252-258 | Exactly frames that fit the limit with their newline are written, in order. |
| `Lifecycle.WrittenStageFits` | agent/restart.py:214-227 | What `Stage` writes has the shape the ordered-writer theorem asks for, for every accepted name and clock. |
| `Lifecycle.OrderedWriterIsAccepted` | agent/restart.py:214-258 | Stages in clock order, then ready, then commit from the channel writer are always accepted, for every chunking of the bytes, provided these frames read back as written. |
| `Lifecycle.AuthorisedIffOneCommit` | agent/supervisor.py:96-199 | After a proper start, what a writer sends authorises the restart if and only if it holds exactly one commit, for every chunking; a second commit takes the authorisation back. |
| `InboundStore.InboundHandoffStore.FindDedupe` | session/inbound_store.py:90-108 | The lookup loop finds the row with a dedupe key if and only if there is one. |
| `InboundStore.InboundHandoffStore.ReserveHandoff` | session/inbound_store.py:59-177 | Reserve inserts, returns the existing id, or refuses, and keeps ids and dedupe keys unique. |
| `InboundStore.ReserveDecides` | session/inbound_store.py:59-177 | A reservation is malformed, new, the same row, the same message under another id, or a conflict, exactly as the table and the fields of the row say; only a new one changes the table. |
| `InboundStore.InboundHandoffStore.CompleteHandoff` | session/inbound_store.py:243-257 | Completing removes exactly the named row and reports a missing one. |
| `InboundStore.ReserveAgainReturnsFirst` | session/inbound_store.py:59-177 | Reserving the same identity again, under any proposed id, returns the first id and changes nothing; only under the very same id must the transport time agree too. Another identity under a stored id or dedupe key is refused, and nobody is answered with the id of a different message. |
| `InboundStore.OfferPage` | bus/queue.py:536-584 | From one page exactly the rows not in use are offered, in order, after those of earlier pages. |
| `InboundStore.PageIsFirst` | session/inbound_store.py:179-204 | A page has at most 256 rows, and a row behind the cursor is missing from it only if 256 earlier ones fill it. |
| `InboundStore.RecoverAll` | bus/queue.py:510-584 | While rows come, go and are taken between the page reads, the paged scan offers exactly the rows that are free when their page is read, in order and none twice; a row that is there and free until the scan is past it is offered, whatever becomes of it then; the scan ends on an empty page with nothing ahead. |
| `InboundStore.PassedOnOnePage` | session/inbound_store.py:179-204 | A row that is in the table at every read until the scan is past it lies on exactly one page. |
| `Recovery.ReadClaimsFreeRows` | bus/queue.py:536-584 | A read of the scan can always go ahead on a free lock and claims exactly the rows of its page that are unclaimed, to which no envelope is bound, and whose admission, if any, is recoverable. |
| `Recovery.ScanClaimsOnce` | bus/queue.py:510-584 | In every run of the bus with a scan in it, a row that is there and neither claimed nor in flight at the reads until the scan is past it is claimed by exactly one of them. |
| `Recovery.FreshScanClaimsOnce` | bus/queue.py:510-584 | After a crash the scan of the next process claims every surviving row exactly once, unless somebody reserves, claims or deletes that very row before the scan gets to it. |
| `Handoff.SessionAdmissions.Acquire` | session/admissions.py:57-87 | A lease is added exactly when the session is known or need not exist. |
| `Handoff.SessionAdmissions.Release` | session/admissions.py:89-99 | Releasing removes exactly that lease and reports an unknown one. |
| `Handoff.SessionAdmissions.ClearStale` | session/admissions.py:101-106 | Startup removes every lease of the previous process. |
| `Handoff.MessageBus.Ensure` | bus/queue.py:876-893 | An admission is reused, or made with one fresh lease, or refused when no lease is given. |
| `Handoff.MessageBus.ReserveChannelHandoff` | bus/queue.py:586-615 | Reserving for the channel: admission and row together, and the admission undone when the store refuses or raises. `HandoffAnswers.ReserveAnswers` says what each answer means. |
| `Handoff.MessageBus.ReserveMobileInput` | bus/queue.py:741-856 | Preparing binds the envelope to its handoff, with the branch for a handoff under recovery. `HandoffAnswers.PrepareAnswers` says what each answer means. |
| `HandoffAnswers.ReserveAnswers` | bus/queue.py:586-615 | A reserve is accepted exactly when the bus is open, its store works, a lease is there or offered and the row is new or stored with this identity; then the row and one admission with its lease are held. After any other answer the bus is as it was; a closed bus and a failing store always raise. |
| `HandoffAnswers.PrepareAnswers` | bus/queue.py:741-800 | A prepare is accepted exactly when, besides, the row is new, or recovery has claimed it, or no envelope is bound to it; then the row is held and the envelope is bound both ways. After any other answer the bus is as it was. |
| `Handoff.MessageBus.CompleteLocked` | bus/queue.py:1048-1083 | Completion deletes the row first; a store fault marks the admission for cleanup or stops the bus, else it goes on to close the envelope. |
| `Handoff.MessageBus.FinalizeLocked` | bus/queue.py:1262-1281 | After the envelope is closed, its binding, admission and lease go together. |
| `Handoff.MessageBus.RetainLocked` | bus/queue.py:1098-1115 | Retaining drops the envelope binding and keeps the admission for recovery. |
| `HandoffAnswers.RetainedIsFree` | bus/queue.py:1098-1115 | Retaining a message, claimed by a scan or not, keeps its row and its lease, takes the envelope and the claim away, and recovery may claim it at once. |
| `Handoff.MessageBus.Defer` | bus/queue.py:617-634 | Deferring marks an unbound admission as recoverable. |
| `Handoff.MessageBus.SettleRejected` | bus/queue.py:636-655 | Settling a rejected input deletes the row and gives the lease back, or keeps both when the store fails. |
| `Handoff.MessageBus.ReleaseForShutdown` | bus/queue.py:1373-1389 | The shutdown loop empties the admissions one by one. |
| `Handoff.StepKeepsInv` | bus/queue.py:586-1389 | Every locked section, fault, cancellation and crash keeps the handoff invariant, provided a prepare binds cleanly. |
| `Handoff.RunsKeepInv` | bus/queue.py:586-1389 | The handoff invariant holds in every state of every such run. |
| `Handoff.HandoffsAreConserved` | bus/queue.py:586-1389 | In every such run the envelope map and the admissions are inverse partial maps, the leases are exactly those of the admissions and none is shared, and an admission lacks its row if and only if it is the one being finalized or it is stranded by a failed close. |
| `HandoffAnswers.OthersAreUntouched` | bus/queue.py:586-1389 | Short of a crash, no step changes the row, admission, lease, claim or bindings of a handoff it is not about. |
| `HandoffAnswers.NothingToDo` | bus/queue.py:617-1115 | An envelope that does not hold a handoff cannot complete or retain it, a bound handoff is neither deferred nor settled, and without its row or with a failing store nothing is settled. |
| `Handoff.StrandedStep` | bus/queue.py:586-1389 | Which admissions are stranded after any step: a close that fails after the delete strands its own, and only a drained entry, a crash or a new row under its id ends that. |
| `Handoff.RowsKeptIffCloseWorks` | bus/queue.py:1048-1281 | From any state in which every admission outside a finalization has its row, a step leaves one without if and only if it is a close that fails after the delete. |
| `Handoff.ShutdownReleasesEverything` | bus/queue.py:1373-1389 | Once the shutdown loop is through, no lease and no envelope binding is left. |
| `Handoff.BindKeepsInverseIffClean` | bus/queue.py:741-800 | A prepare keeps the maps inverse if and only if the handoff is not already bound to another envelope where the recovery branch does not look; it goes wrong only for a handoff claimed by recovery or one whose row was deleted before a close failed. |
| `Handoff.LivePrepareDuringRecoveryBreaksInverse` | bus/queue.py:741-800 | A concrete run in which a live prepare meets the recovery branch and two envelopes end up on one handoff. |
| `Handoff.CancelledCloseStrandsAdmission` | bus/queue.py:1262-1281 | A concrete run in which a close cancelled after the delete leaves an admission without its row. |
| `Handoff.StepKeepsRow` | bus/queue.py:586-1281 | A step that does not complete, retry or settle a handoff leaves its row as it is; crashes included. |
| `Handoff.RowLeavesOnlyWhenFinished` | bus/queue.py:510-1281 | Over whole runs with crashes, a reserved row stays unchanged until it is completed, its cleanup is retried, or its input is settled. |
| `HandoffPaths.HandledLeavesNoTrace` | bus/queue.py:586-1281 | On any bus and for any new message, reserve, prepare, complete and close are possible and leave the bus exactly as it was. |
| `HandoffPaths.FailedDeleteIsRetried` | bus/queue.py:1048-1218 | A delete that fails for now keeps row and lease, completing again changes nothing, and the retry ends the message without a trace. |
| `HandoffPaths.RetainedIsRecovered` | bus/queue.py:1085-1115 | A retained message, also one whose delete failed, can be claimed by recovery and ends under a new envelope without a trace. |
| `HandoffPaths.DeferredIsRecovered` | bus/queue.py:617-634 | A message is claimed only after it was deferred; deferring gives a claim back, and the next claim takes it to its end without a trace. |
| `HandoffPaths.CrashedIsRecovered` | bus/queue.py:510-584 | A crash before the delete loses nothing: the next process finds the row, claims it and takes the message to its end. |
| `HandoffPaths.SettledLeavesNoTrace` | bus/queue.py:636-655 | Settling a rejected message leaves no trace, a failing store keeps it, and a bound message is not settled. |
| `HandoffPaths.ClaimsAreGivenBack` | bus/queue.py:581-584 | A scan that fails gives its claims back and changes nothing else. |
| `HandoffPaths.ShutdownDrains` | bus/queue.py:1318-1389 | From every state that keeps the invariant, closing and draining is possible and ends with no admission, lease or binding and with every row kept; after that no message is taken. |
| `Outbound.MessageBus.PublishAwaited` | bus/queue.py:1430-1462 | Publishing refuses on a closed bus, queues at the end, or suspends for the lane mark. |
| `Outbound.MessageBus.Resume` | bus/queue.py:1446-1470 | After the lane mark the closed flag is looked at again: refused when closed, queued otherwise. |
| `Outbound.MessageBus.Finally` | bus/queue.py:1530-1548 | A worker that ends with an item in flight gives it its answer. |
| `Outbound.MessageBus.TakeItem` | bus/queue.py:1494-1512 | The worker takes the head of the queue into the lane. |
| `Outbound.MessageBus.SendChannelOutbound` | bus/queue.py:1550-1602 | Without a bound provider the item is refused; otherwise the provider is called once. |
| `Outbound.MessageBus.AfterLane` | bus/queue.py:1512-1548 | What the lane call ended with becomes the item's one answer, or ends the worker. |
| `Outbound.MessageBus.DrainOutboundQueue` | bus/queue.py:1391-1414 | The loop refuses every queued item and empties the queue. |
| `Outbound.DrainRefusesQueued` | bus/queue.py:1391-1414 | Draining answers exactly the queued items that had no receipt, all with a refusal, and touches nothing else. |
| `Outbound.StepKeepsInv` | bus/queue.py:1318-1624 | Every section of publishers, worker and close, every timeout and cancellation keeps the delivery invariant. |
| `Outbound.RunsKeepInv` | bus/queue.py:1318-1624 | The delivery invariant holds in every state of every run. |
| `Outbound.ReceiptsAreExact` | bus/queue.py:1430-1624 | In every run an item is settled at most once and its provider called at most once; a REJECTED receipt made by the bus means never called, a FAILED one means called. |
| `Outbound.NothingIsLost` | bus/queue.py:1430-1548 | An item has no receipt if and only if it is in exactly one of: its lane mark, the queue (once), the worker's hands. |
| `Outbound.FinishedCloseAnswersEverything` | bus/queue.py:1318-1414 | Once close has finished every item has its receipt, except publishers still at their lane mark, which are refused as soon as they resume. |
| `Outbound.ReceiptsAreFinal` | bus/queue.py:1430-1624 | A receipt never changes. |
| `Outbound.NoCallAfterClose` | bus/queue.py:1500-1602 | Once the bus is closed no provider is called any more, for no item, and an item not called by then is answered with a refusal, if at all. |
| `Outbound.TakenAfterClose` | bus/queue.py:1500-1505 | What the worker takes after the close is refused without a call, and the worker ends: at once, or for a passive item once its mark is taken back. |
| `Outbound.CloseAbortsExactlyOnError` | bus/queue.py:1318-1349 | A close is abandoned if and only if the awaited worker ends with an error or the inbound drain raises. |
| `Outbound.AbortedCloseStrandsQueue` | bus/queue.py:1318-1414 | After an abandoned close the queued items keep their places for ever and never get a receipt. |
| `Outbound.EndedCloseAnswersIffQueueEmpty` | bus/queue.py:1318-1414 | When a close has ended in either way and the worker is gone, every registered item has its receipt if and only if the queue is empty. |
| `Outbound.ProviderErrorDuringCloseStrandsQueue` | bus/queue.py:1333-1349 | A concrete run: a provider error during close leaves a queued item without a receipt. |
| `Outbound.FrontIsDelivered` | bus/queue.py:1482-1602 | On any open bus with a running worker the front of the queue is served: the provider is called once if the gate lets it, its status is the receipt, nobody else is touched, and the worker goes on unless the provider is unbound or broke its promise. |
| `Outbound.StopsAndStarts` | bus/queue.py:1482-1494 | A stopped worker ends and publishers are refused; a new one takes them again with the queue as it was. |
| `Outbound.CloseEnds` | bus/queue.py:1318-1414 | From every reachable state a close that was asked for ends after finitely many of its own steps, with the queue empty and every registered item answered, unless it was abandoned already or the worker it cancelled has answered the cancellation with an error. |
| `OutboundMarks.QueueKeepsDiscipline` | bus/queue.py:1391-1624 | In every joint run of the queue and one conversation's lane, the lane has run under the discipline of marks, and the open marks are exactly those of the queued passive deliveries and of the done marks that were cancelled before they were made: the queue loses no mark and hands none over twice. |
| `OutboundMarks.CancelledDoneKeepsCount` | bus/queue.py:355-365 | A concrete run: a publisher finds the bus closed and is cancelled while it waits to take its mark back; the lane is left empty with a send counted. |
| `OutboundMarks.CountedSendBlocks` | bus/queue.py:408-432 | On an empty lane with a send counted, a non-passive call parks and nothing of its own wakes it. |
| `OutboundMarks.LaneOfQueueIsBalanced` | bus/queue.py:346-406 | So in every joint run the lane's send counter is exact, no registered send is refused for a missing count and no leaving sender raises. |
| `OutboundMarks.WorkerIsNeverRefused` | bus/queue.py:367-406 | In every joint run the lane's refusal of a registered send, and its error on leaving, never reach the worker for a delivery of the conversation. |
| `OutboundMarks.ProviderCallIsAlone` | bus/queue.py:1494-1602 | In every joint run, while the provider is called for a delivery of the conversation, the worker's own lane call is the sending one and nobody else sends on the lane. |
| `OutboundMarks.LaneGoesAlong` | bus/queue.py:1506-1602 | In every joint run, once the worker's lane call is sending or leaving, the lane goes along with whatever the worker does next at the delivery: it holds nothing up. |
| `FrameBook.ControlFrameBook.AddRoute` | agent/control/frame_book.py:115-135 | A new route takes its key; the first owner of a key is kept, and a closed book takes none. |
| `FrameAnswers.RouteAnswers` | agent/control/frame_book.py:115-135 | A free key of an open book gets a new route of this connection; otherwise nothing changes. No other route or wait is touched. |
| `FrameAnswers.StageAnswers` | agent/control/frame_book.py:152-171 | A stage is a new route beside the table: the owner of its key stays until the commit. |
| `FrameBook.ControlFrameBook.Wake` | agent/control/frame_book.py:374-377 | Every parked waiter of a route gets the outcome, nobody else does. |
| `FrameBook.ControlFrameBook.Fail` | agent/control/frame_book.py:379-393 | A failed route leaves the table and the stages, and all its waiters are woken with the error. |
| `FrameBook.ControlFrameBook.Release` | agent/control/frame_book.py:367-377 | A released route leaves the table; without a written Output its waiters get an error. |
| `FrameAnswers.ReleaseAnswers` | agent/control/frame_book.py:265-278 | Releasing an input ends its route exactly when no claim holds it, and tells those parked on it, if it was not drained, that it had no output; a held route goes on and others are untouched. |
| `FrameAnswers.SettleAnswers` | agent/control/frame_book.py:280-292 | Settling an input releases an unclaimed route, fails a claimed one when there is an error to tell, and otherwise changes nothing. |
| `FrameBook.ControlFrameBook.Resolve` | agent/control/frame_book.py:173-206 | A page is matched against every route in order; each route's expected Output is fixed at its first resolution, and a failing route does not stop the others. |
| `FrameAnswers.PageAnswers` | agent/control/frame_book.py:173-206 | A page is refused exactly when a route of its connection expects another output than the complete one its resolver names; an accepted page tracks exactly the routes whose own output it carries, fixes it for them and their claims, and changes nothing else. |
| `FrameBook.ControlFrameBook.Attach` | agent/control/frame_book.py:208-219 | Attaching a page marks the routes it tracks as waiting for its write. |
| `FrameAnswers.AttachAnswers` | agent/control/frame_book.py:208-218 | Sending a page binds it to exactly those routes it tracks that have no page yet and are not drained. |
| `FrameBook.ControlFrameBook.Done` | agent/control/frame_book.py:330-341 | When the page is written the route is drained and its waiters succeed; when the write broke, it fails. |
| `FrameAnswers.FrameLeavesOthers` | agent/control/frame_book.py:330-341 | Settling a page's write for one route changes no other route and no wait on another one. |
| `FrameBook.ControlFrameBook.AwaitOutput` | agent/control/frame_book.py:220-229 | Waiting answers at once on a drained or failed route or on another Output's id, and parks otherwise. |
| `FrameAnswers.WaitAnswers` | agent/control/frame_book.py:220-256 | A wait for another output than the expected one is refused; otherwise the expectation is fixed, and it ends at once on a failed or drained route and parks on any other. |
| `FrameAnswers.ClaimWaitAnswers` | agent/control/frame_book.py:230-256 | A wait for a claim's ending ends at once on a closed claim or a decided route and parks otherwise. |
| `FrameAnswers.ResumeLeavesOthers` | agent/control/frame_book.py:242-256 | A resumed wait ends with what it was told; its route may go, and nobody else is told anything. |
| `FrameAnswers.CancelAnswers` | agent/control/frame_book.py:242-256 | A cancelled wait ends as interrupted and leaves its route; nothing else changes. |
| `FrameBook.ControlFrameBook.Arm` | agent/control/frame_book.py:294-307 | A claim is armed once per (session, call) on a live route. |
| `FrameAnswers.ArmAnswers` | agent/control/frame_book.py:294-307 | A call is claimed once in a session: a new claim belongs to the route of its input and knows a fixed output; without a route or with an open claim of the call nothing changes. |
| `FrameBook.ControlFrameBook.EndClaim` | agent/control/frame_book.py:343-349 | Consuming or aborting a claim removes it from its route and the index, and releases a finished route. |
| `FrameAnswers.EndClaimAnswers` | agent/control/frame_book.py:343-349 | Ending an open claim takes it from route and index and ends the route exactly when that is in the table, drained and held by no other claim. |
| `FrameBook.ControlFrameBook.Commit` | agent/control/frame_book.py:351-360 | Committing a stage replaces the live route of its key. |
| `FrameAnswers.CommitLeavesOthers` | agent/control/frame_book.py:351-360 | Committing a live stage touches its own route and the one it replaces, which is gone with an error, and no other. |
| `FrameAnswers.AbortAnswers` | agent/control/frame_book.py:362-365 | Aborting a live stage ends its route and tells those who wait on it; nothing else changes. |
| `FrameBook.ControlFrameBook.FailConnection` | agent/control/frame_book.py:314-321 | All routes and stages of one connection fail, no others. `FrameAnswers.LostConnectionTells` says whose, and who is told. |
| `FrameAnswers.LostConnectionTells` | agent/control/frame_book.py:314-321 | From every state that keeps the invariant, the routes and stages of the lost connection leave table and stages with an error and everyone parked on them is told; every other route keeps its object, its entry and its waits. |
| `FrameBook.ControlFrameBook.Close` | agent/control/frame_book.py:323-328 | Closing fails every route and stage and refuses later ones. |
| `FrameBook.ResolveKeepsInv` | agent/control/frame_book.py:173-206 | Resolving any page against any routes keeps the invariant, with each tracked Output complete in its session. |
| `FrameBook.StepKeepsInv` | agent/control/frame_book.py:115-398 | Every operation, page outcome, wakeup and cancellation keeps the frame book invariant. |
| `FrameBook.RunsKeepInv` | agent/control/frame_book.py:115-398 | The frame book invariant holds in every state of every run. |
| `FrameBook.NobodyHangs` | agent/control/frame_book.py:220-256 | In every run a route in neither the table nor a stage is drained or failed, and every parked wait is on a route that is still in one and will wake it. |
| `FrameBook.DeliveredMeansWritten` | agent/control/frame_book.py:220-256 | A wait ends well only after a written page that carries the Output its own route resolved to, complete in its session; for a claim it is the claim's ending. |
| `FrameBook.OpenClaimsAreResolved` | agent/control/frame_book.py:231-241 | A claim wait ends unresolved only when the claim was closed. |
| `FrameBook.ClaimsMatchIndex` | agent/control/frame_book.py:294-349 | Open claims and the (session, call) index are in bijection, and each open claim carries its route's resolution. |
| `FrameBook.EndingsAreFixedOnce` | agent/control/frame_book.py:173-206 | Once a route's expected Output or resolution is set, no later step changes it. |
| `FrameBook.CommitInstallsDeadRouteIffStageGone` | agent/control/frame_book.py:351-360 | Committing an open stage puts its route in the table, unless it is written and unclaimed, and that route is a failed one if and only if the stage had already left the stage set. |
| `FrameBook.DeadStageReplacesLiveRoute` | agent/control/frame_book.py:351-360 | A concrete run: a stage whose page write broke is committed and replaces a live route. |
| `FramePaths.PageReachesWaiter` | agent/control/frame_book.py:208-256 | From every reachable state, sending the page with a route's ending takes four possible steps to the answer of whoever waits on it: delivered when the write worked, failed when it broke. |
| `FramePaths.PageRefusedIff` | agent/control/frame_book.py:173-206 | A page is refused if and only if it names a second ending for one of the routes. |
| `FramePaths.PageTracksConcerned` | agent/control/frame_book.py:173-206 | An accepted page tracks exactly the routes it concerns, each with the ending its own resolver named, and changes no other route. |
| `FramePaths.CommitTellsReplaced` | agent/control/frame_book.py:351-360 | Committing a live stage puts its route in the table, unless it is written and unclaimed, and tells exactly those who wait on the route it replaces. |
| `FramePaths.CloseTellsEveryone` | agent/control/frame_book.py:323-328 | Closing the book leaves no route, no stage and nobody parked. |
| `Codec.UniqueFields` | session/message_codec.py:107-113 | The hook accepts a list of members exactly when no name repeats (RFC 8259 section 4), and then returns all of them. |
| `Codec.FreezeAcceptsJson` | session/message.py:36-55 | `freeze_json` accepts exactly JSON values and returns deeply immutable ones. |
| `Codec.FreezeUndoesThaw` | session/message_codec.py:20-29 | Freezing undoes `json_value`, and leaves frozen values as they are. |
| `Codec.TextSurvives` | session/message_codec.py:20-85 | Every frozen value survives writing with sorted keys and reading back, at every depth, up to key order. |
| `Codec.SameNormIffEqual` | session/message_codec.py:20-85 | The key-ordered forms of two frozen values coincide if and only if Python calls the values equal and wherever both hold a number it is of one kind (truth value, integer, float, -0.0). |
| `Codec.ContainersEqualIff` | session/log.py:975-988 | Lists equal lists and tuples equal tuples place by place, never each other; a foreign object equals what it says it is like, or nothing. |
| `Codec.LoadRefusesDuplicates` | session/message_codec.py:107-119 | Reading a text succeeds exactly when no object at any depth repeats a name. |
| `Codec.DecodeRefusesDuplicates` | session/message_codec.py:107-119 | Decoding fails with the duplicate error if and only if some object repeats a name. |
| `Codec.DecodedIsValid` | session/message_codec.py:116-159 | Whatever decodes satisfies the constructors' rules. |
| `Calls.ValidInFields` | session/message.py:58-178 | The bodies that can be made, written and read, told part by part: kinds and bindings are not empty, only an Output that continues holds calls, and finish, outcome, action and numbers are in their ranges. |
| `Codec.DecodeUndoesEncode` | session/message_codec.py:76-159 | Decoding undoes encoding on every constructible body, the legacy unknown marker and nested JSON included; the result is the body with its keys in order. |
| `Codec.EncodeNewRefusesLegacy` | session/message_codec.py:32-85 | A new message is refused exactly when it carries the legacy marker. |
| `Codec.EncodeUndoesDecode` | session/message_codec.py:76-159 | Encoding a decoded canonical text gives that text back. |
| `Codec.EncodedIsCanonical` | session/message_codec.py:32-85 | Whatever is written is canonical. |
| `Codec.SameTextIffEqualAlike` | session/message_codec.py:76-85 | Two bodies have one stored text if and only if Python calls them equal, their numbers are of one kind and they agree on the legacy marker. |
| `Codec.EqualBodiesTwoTexts` | session/log.py:905-916 | A concrete pair of inputs, 1 against true, that Python calls equal and a replay tells apart. |
| `MessageLog.Log.PartReferences` | session/log.py:992-1026 | The loop over the parts refuses at the first ungranted or rejected part and otherwise gathers all bindings and artifacts. |
| `MessageLog.Log.InsertRows` | session/log.py:938-973 | The inserts of a new message, with what is left behind when one fails. |
| `MessageLog.Log.AppendRows` | session/log.py:891-990 | One append inside a transaction: grant, replay, expiry, head, parts, call result, rows, metadata, in that order. Which calls that leaves open: `Calls.CallsAfterAppend`. |
| `MessageLog.Log.AppendMessage` | session/log.py:880-889 | An append of its own commits all of its effects or none. |
| `MessageLog.Log.SaveRecord` | session/log.py:1163-1190 | A save succeeds exactly on the expected version and raises the version by one. |
| `MessageLog.Log.TransactOps` | session/log.py:1115-1208 | The loop over the callback's calls with the poison flag, and commit or rollback at its end. |
| `MessageLog.SeqBelowCount` | session/log.py:938-979 | Stored sequence numbers stay below the session's counter, so its uniqueness rule never fires. |
| `MessageLog.WriteKeepsInv` | session/log.py:891-1054 | An accepted append keeps the chain of messages well formed. |
| `MessageLog.StepKeepsInv` | session/log.py:361-1208 | Every append, transaction and other write keeps the log invariant. |
| `MessageLog.RunsKeepInv` | session/log.py:361-1208 | The log invariant holds in every state of every run from the empty log. |
| `MessageLog.SequencesAreDense` | session/log.py:938-979 | In every run each session's numbers are exactly 0..next_seq-1 in append order. |
| `MessageLog.MessagesPointBack` | session/log.py:1028-1054 | Ids are unique, every stored body decodes, a Control points strictly before itself, and a tool result names a tool call of an earlier Output of its session and source that has no other result. |
| `Calls.PartIsNth` | session/log.py:1038-1052 | The part with number n is the one with n parts before it. |
| `Calls.HeadIsLargest` | session/log.py:924-929 | The source head is the largest number among the rows of the session and source, -1 without any. |
| `Calls.HeadIsLast` | session/log.py:924-929 | In every run it is the number of the last row of the session and source. |
| `MessageLog.RunsOnlyAppend` | session/log.py:891-990 | Stored messages are never changed or removed. |
| `MessageLog.ReplayReturnsFirst` | session/log.py:903-921 | In any later state, replaying a stored id changes nothing and returns the stored message if and only if the grant admits it, session, author, source and metadata are the same, and the body is equal and written alike. |
| `MessageLog.TransactIsAllOrNothing` | session/log.py:1115-1161 | A transaction commits exactly when the callback returns and no call of it failed, even one whose error was swallowed; otherwise the database is as before. |
| `MessageLog.SavesAdvance` | session/log.py:1163-1190 | A committed transaction raises each record's version by the number of its saves to that key. |
| `MessageLog.VersionsCountSaves` | session/log.py:1163-1190 | Over whole runs a record's version is the number of committed saves to its key, less one. |
| `MessageLog.OneOfTwoCommits` | session/log.py:1163-1190 | Of two transactions of a run that expect the same version of one key, at most one commits. |
| `Effects.CollectSucceeds` | session/log.py:992-1026 | Checking the parts succeeds if and only if every part is granted and accepted by its owner. |
| `Effects.CollectGathers` | session/log.py:992-1026 | What is gathered is exactly what some part refers to. |
| `Effects.ResultChecked` | session/log.py:1028-1054 | A tool result passes if and only if there is a real call of this session and source without a result. `Calls.AwaitingIsCallable` says it of the exact part. |
| `Calls.AwaitingIsCallable` | session/log.py:1028-1054 | A result is taken for exactly the part of exactly the Output it names, when that part is a call and no stored result names both. |
| `Calls.CallsAfterAppend` | session/log.py:891-1054 | After an accepted result of a part, that part awaits none; after an accepted Output exactly its calls await one; every other call of any message awaits a result exactly if it did before. |
| `Calls.AcceptedIsGranted` | session/log.py:870-874 | Whatever is accepted is of a granted kind, and a result is of the call its writer was granted. |
| `Effects.NewIsAppendedIff` | session/log.py:891-990 | In every reachable state a new id is taken if and only if the request is admissible: grant, metadata, active writer, expected head, parts, call, update keys, bindings, control target, and an update that makes no difference or gives JSON; a refused append changes nothing. |
| `Effects.DroppedIffIdle` | session/log.py:975-988 | The merged session metadata is dropped if and only if no key of the update comes, goes or gets a value that Python calls different from what is stored. |
| `Effects.NewAppendsOne` | session/log.py:938-990 | An accepted new message adds exactly itself with the next number, its references and the counter; an update that makes no difference to Python leaves the session metadata as it is, and any other is stored as a whole, with its keys set or gone and every other key kept. No other session, record, binding or artifact changes. |
| `Effects.EqualUpdateIsDropped` | session/log.py:975-988 | A concrete run: a key holds 1, a message that sets it to true is taken, and the key still holds 1. |
| `Effects.LastSaveWins` | session/log.py:1142-1190 | After a committed transaction a record holds what the last save of its key stored, and every record without a save is as it was. |
| `Readers.AppendsAreStable` | session/log.py:658-669 | While only appends interleave, a range whose end is already reached does not change. |
| `Readers.PlainSnapshot` | session/log.py:658-669 | The 1000-row loop yields exactly the rows of the range, also while other writes interleave that leave the range alone. |
| `Readers.SnapshotHolds` | session/log.py:658-669 | A snapshot is refused exactly when it would read from below -1; otherwise it holds exactly the rows after the start and up to the bound, in order. |
| `Readers.ReadHolds` | session/log.py:615-638 | A read is refused exactly for a limit below one or a start below -1; otherwise it leaves out only later rows of its range, and only when it is full. |
| `Readers.MakePage` | session/log.py:683-715 | The page made by reading one row more than asked, in both directions. |
| `Readers.PageHolds` | session/log.py:683-715 | A page is refused exactly when limit, start, bound or end is out of bounds; otherwise it holds rows of its window in order, leaves out only later ones, or for a tail earlier ones, and only when it is full, and `has_more` tells whether it left any out. |
| `Readers.MoreIsExact` | session/log.py:683-715 | `has_more` is false if and only if nothing of the range lies beyond the page. |
| `Readers.FollowPages` | session/log.py:671-715 | A chain of `read_page` calls under any accepted `through_seq`, or the head at the first call, yields exactly the rows up to that bound, once each and in order, while appends interleave. |
| `Readers.FollowTails` | session/log.py:677-715 | A chain of `read_tail` calls under any accepted `through_seq` and from any accepted `before_seq`, re-joined, yields exactly the rows up to there. |
| `Readers.BisectRight` | session/log.py:817-819 | The bisection finds how many rows lie at or below a number. |
| `Readers.IncrementalReader.SnapshotInTransaction` | session/log.py:801-803 | Inside an own transaction the plain snapshot of that view is answered and the cache is left alone. |
| `Readers.IncrementalReader.CatchUp` | session/log.py:804-819 | Catching up replaces a stale prefix or extends it, and cuts the answer out of it. |
| `Readers.CatchingUpIsGood` | session/log.py:804-816 | Catching up keeps the cache a prefix of the stored rows, for early partial requests too. |
| `Readers.GoodMeansPlain` | session/log.py:658-819 | With a good cache the incremental answer is the plain one for every after/through pair the plain reader accepts; the plain one refuses exactly when after is below -1 and below the end. |
| `Readers.IncrementalIsPlain` | session/log.py:787-819 | In every reachable state, under own appends, rollbacks, foreign edits of any kind, sparse numbers and partial requests, the two readers agree, provided own appends are numbered above the kept rows. |
| `Readers.OwnAppendKeepsGoodIffAbove` | session/log.py:804-816 | An own append leaves the cache good if and only if its number is above the kept rows. |
| `Readers.OwnAppendIsSeenIffAbove` | session/log.py:804-819 | The next full snapshot of both readers agrees if and only if the own append was numbered above the kept rows. |
| `Readers.LowOwnAppendGoesUnseen` | session/log.py:804-819 | A concrete run: a foreign edit lowers next_seq, an own append lands below the kept rows, and the incremental reader misses it. |
| `Follower.FollowedLog.NotifyAll` | session/log.py:370-375 | One wakeup is scheduled for every subscribed follower. |
| `Follower.FollowedLog.CommitRows` | session/log.py:361-375 | A commit adds the rows and schedules the wakeups under one lock. |
| `Follower.FollowedLog.Close` | session/log.py:463-471 | Closing wakes every follower, once. |
| `Follower.FollowedLog.ReadBatch` | session/log.py:770-780 | One read gives the next rows after what was yielded, ends on a closed log, or decides to wait. |
| `Follower.StepKeepsInv` | session/log.py:762-784 | Subscribe, clear, read, yield, commit, delayed set and close each keep the wakeup invariant. |
| `Follower.RunsKeepInv` | session/log.py:762-784 | The wakeup invariant holds in every interleaving. |
| `Follower.NoLostWakeup` | session/log.py:762-784 | A parked follower with unread messages, or on a closed log, has its event set or a set already scheduled. |
| `Follower.YieldsSessionInOrder` | session/log.py:762-784 | What a follower has yielded is the session between its start and its cursor, in order, each message once. |
| `Follower.BatchIsYielded` | session/log.py:770-780 | What one read gave is yielded to its end and in order, also when the log is closed or grows meanwhile, unless the follower is cancelled. |
| `Follower.QuietFollowerIsUpToDate` | session/log.py:762-784 | A parked follower with no wakeup on its way has yielded everything there is. |
| `Follower.FollowerCatchesUp` | session/log.py:762-784 | From every reachable state a follower left to its own steps comes to rest after finitely many: on an open log it has yielded the whole session, on a closed one it has ended, and nobody else is touched. |
| `Follower.SubscriberReadsSession` | session/log.py:762-780 | A new follower of an open log is on the way to the whole session after its start; a closed log takes none. |
| `Follower.CloseEndsFollowers` | session/log.py:463-471 | Closing the log ends every follower by its own steps. |
| `Follower.WokenOnce` | session/log.py:370-471 | The first close wakes everyone who is subscribed, later ones nobody; a commit wakes each of them once, and an ended follower is never woken. |
| `Follower.CancelledYieldsNoMore` | session/log.py:781-784 | A cancelled follower yields nothing any more. |
| `Backup.ScanLists` | scripts/rolling_backup.py:302-350 | Every path of a tree is in the scan, at the place given for it, with its kind, mode and content. |
| `Backup.ScanFinds` | scripts/rolling_backup.py:302-350 | Every scanned entry is a path of the tree, and only one entry stands for it. |
| `Backup.ParentsFirst` | scripts/rolling_backup.py:302-350 | A directory is scanned before everything it holds. |
| `Backup.PlaceEntries` | scripts/rolling_backup.py:367-408 | Copying the entries one by one never lacks a parent and leaves each path with its kind and content, and nothing else. |
| `Backup.ApplyModes` | scripts/rolling_backup.py:411-425 | Setting modes deepest first leaves exactly the source tree. |
| `Backup.NamesCollide` | scripts/rolling_backup.py:183-198 | The check finds a clash if and only if one name is a proper prefix of another. |
| `Backup.ValidateNames` | scripts/rolling_backup.py:201-224 | A plan's names pass if and only if there is one, each is proper, and none equals or is a prefix of another. |
| `Backup.AddKeepsBuilt` | scripts/rolling_backup.py:428-443 | Adding a source whose name is unrelated keeps every other source as it is. |
| `Backup.Install` | scripts/rolling_backup.py:367-443 | Installing one source from its record puts exactly that tree at its name. |
| `Backup.CreateSnapshot` | scripts/rolling_backup.py:857-922 | A plan is refused exactly on its names; otherwise the tree holds each source exactly and nothing else, and the manifest describes it. |
| `Backup.ExpectedTree` | scripts/rolling_backup.py:630-690 | The expected paths, kinds and modes computed from a manifest are those of a tree built from the sources. |
| `Backup.MatchesIffIntact` | scripts/rolling_backup.py:693-727 | Agreeing with the expected tree is the same as being intact: every source exactly there and nothing else, any mode for the directories above. |
| `Backup.VerifyTree` | scripts/rolling_backup.py:693-727 | Verification of a tree answers yes if and only if it is intact. |
| `Backup.VerifySnapshot` | scripts/rolling_backup.py:620-627 | `verify_snapshot` answers yes if and only if the manifest file is there and the rest is intact. |
| `Backup.RestoreSources` | scripts/rolling_backup.py:739-800 | Restoring an intact snapshot, its manifest file beside the sources, builds each source again. |
| `Backup.RestoreSnapshot` | scripts/rolling_backup.py:804-836 | A published snapshot is restored if and only if its manifest file is there and the rest is intact; what is restored passes the same verification. |
| `Backup.RoundTrip` | scripts/rolling_backup.py:804-922 | For all sources with accepted names, create, verify and restore of the published tree succeed, and the restored tree holds the same relative paths, kinds, bytes and modes. |
| `Backup.BuiltTreesAgree` | scripts/rolling_backup.py:804-836 | Any two trees built from one plan agree on everything at and below the source names. |
| `History.UnitRanges` | session/manager.py:212-250 | The loops compute the units, or refuse a malformed turn id. `History.PartitionIsComputed` says which units these are, in the fields of the messages. |
| `History.UnitEndCuts` | session/manager.py:225-250 | A unit runs exactly to the next place where a cut is allowed. |
| `History.UnitsTile` | session/manager.py:212-250 | The units tile the messages: contiguous, non-empty, cutting everywhere a cut is allowed and nowhere inside a run of one control turn. |
| `History.TilingIsUnique` | session/manager.py:212-250 | Only one list of units tiles the messages, so `UnitsTile` determines the result. |
| `History.UnitsHaveOneKind` | session/manager.py:217-250 | Every unit is one control turn, one proactive message, or an older exchange with no user message but the first. |
| `History.UnitsStopRight` | session/manager.py:217-250 | No unit is cut short: where one ends before the last message, the next one has another turn, or opens a unit of its own by its turn, its role or being proactive. |
| `History.PartitionIsComputed` | session/manager.py:212-250 | Kind and end of a unit, told from the fields of the messages, leave exactly one way to divide a history, and that is the one computed. |
| `History.RefusedIffBadTurn` | session/manager.py:212-250 | Partitioning is refused if and only if some message has a bad turn id. |
| `History.UnitsFromUnit` | session/manager.py:212-266 | From the start of any unit the same units follow. |
| `History.UnitsShift` | session/manager.py:212-266 | Partitioning a suffix gives the shifted units. |
| `History.TailIsLastUnits` | session/manager.py:253-266 | Cutting at the tail start and partitioning again gives exactly the last min(k, total) units, shifted. |
| `History.Truncate` | session/manager.py:54-69 | The marker loop ends for every text; the number in the marker is what was dropped, the ends are kept around it, and the length is exactly the budget whenever the marker fits. |
| `History.TruncateToolChain` | session/manager.py:72-102 | Every tool result of a chain is bounded on its own; the shape of the chain stays. |
| `History.BoundResult` | session/manager.py:86-101 | One stored result: short ones and non-texts unchanged, long ones honest and within the budget. |
| `History.MarkerTellsCount` | session/manager.py:86-101 | The number printed in the marker reads back as the count of dropped characters. |
| `RestartGate.CoreGate.PrepareRestart` | agent/restart.py:93-106 | Preparing needs a supervisor and a proper id, is idempotent for the same id, refused for another, and closes the gate. |
| `RestartGate.PreparedIff` | agent/restart.py:93-106 | A request is accepted exactly when the process is supervised, the id is not empty and neither begins nor ends with space, and no other one stands; a refusal changes nothing. |
| `RestartGate.CoreGate.AcquirePermit` | agent/restart.py:108-113 | A permit is given exactly while the gate accepts. |
| `RestartGate.CoreGate.AcquireChild` | agent/restart.py:115-121 | A child permit is given exactly for an unreleased permit of the current preparation or of none. |
| `RestartGate.CoreGate.ReleasePermit` | agent/restart.py:123-130 | Releasing counts a permit once; a second release changes nothing. |
| `RestartGate.ForeignPermitIsRefused` | agent/restart.py:28-130 | A permit carries the request that stood when it was given, a child that of its parent; a permit of another request gives no child and its release fails without giving anything back. |
| `RestartGate.LastReleaseWakes` | agent/restart.py:123-137 | Exactly the release of the last permit wakes the waiting commits. |
| `RestartGate.CommitStarts` | agent/restart.py:132-149 | A commit is refused for a foreign request, returns when the flag is set, waits exactly when a permit is out, and otherwise is sent at once. |
| `RestartGate.FailedCommitReopens` | agent/restart.py:144-160 | A commit that fails or is given up opens the gate exactly if its request is the one that stands. |
| `RestartGate.WaitingCommitIsSent` | agent/restart.py:123-149 | From every reachable state with a waiting commit, releasing the permits that are out wakes it and it is sent. |
| `RestartGate.CoreGate.AbortRestart` | agent/restart.py:151-160 | Aborting the current request, committed or not, opens the gate again; any other id changes nothing. |
| `RestartGate.RunsKeepInv` | agent/restart.py:41-160 | The gate invariant holds in every run of permits, preparations, commits and aborts. |
| `RestartGate.PermitsAreCounted` | agent/restart.py:108-130 | The count is always the number of unreleased permits, the drained event is set exactly when there is none, and releasing one never fails. |
| `RestartGate.ResumedCommitIsCurrent` | agent/restart.py:132-149 | A woken commit whose preparation still stands finds its own request current, the gate shut and no permit out. |
| `RestartGate.StandsIffNeverAborted` | agent/restart.py:132-160 | A preparation still stands later in a run if and only if its request never left in between. |
| `RestartGate.AbortedRequestIsCommitted` | agent/restart.py:132-160 | A concrete run: a request is aborted while its commit waits, the release that follows wakes the commit, a permit is taken, and the commit is still sent and leaves the flag behind. |
| `RestartGate.ChildrenOfHeldPermits` | agent/restart.py:28-38 | In every run whoever holds a permit can take a further one from it, also while a restart is prepared; a released permit gives none. |
| `RestartGate.CommittedMeansSent` | agent/restart.py:132-160 | While commits only go out for preparations that stand, the committed flag is set if and only if the standing request was sent. |
| `RestartGate.FlagFitsIffFresh` | agent/restart.py:132-160 | A step takes the flag's meaning away if and only if a commit goes out for a preparation that no longer stands while the flag is not set. |
| `RestartGate.NextRequestIsNeverSent` | agent/restart.py:93-149 | In every run a request prepared while the flag of an earlier one is still set is accepted, and as long as it stands each of its commits returns at once and nothing is sent for it. |
| `RestartGate.SentOnceIffUnsent` | agent/restart.py:132-149 | A standing request is sent a second time if and only if a waiting commit resumes although the request was sent meanwhile. |
| `RestartRun.RestartsIffSentOnce` | agent/restart.py:132-258 | When a process reports its start and then writes what its gate sends, the supervisor authorises the restart if and only if the gate sent exactly one commit, however the pipe cuts the bytes. |
| `RestartRun.FlagCountsSends` | agent/restart.py:132-160 | While no commit resumes for a request already sent and no sent request is aborted, the flag counts the commits sent: one or none. |
| `RestartRun.RestartsIffCommitted` | agent/restart.py:132-258 | In such runs the supervisor's verdict is the gate's own committed flag. |
| `RestartRun.TwoWaitersSendTwice` | agent/restart.py:132-149 | A concrete run: two commits of one standing request wait together and are both sent, so that the supervisor refuses the restart. |

## Left out

- Handoff.RunsKeepInv: holds for runs whose prepares bind cleanly, because the recovery branch does not check the bound envelope; `Handoff.BindKeepsInverseIffClean` says exactly which do.
- Readers.IncrementalIsPlain: holds while own appends are numbered above the kept rows, because the code does not compare them; `Readers.OwnAppendKeepsGoodIffAbove` says exactly when that matters.
- Outbound.FinishedCloseAnswersEverything: speaks of a close that finished; `Outbound.EndedCloseAnswersIffQueueEmpty` covers one that was abandoned.
- ChatLane.DisciplinedRunsStayBalanced: assumes each done mark and each registered send has its own pending mark; `OutboundMarks.QueueKeepsDiscipline` shows it of the outbound queue, which is the only one to use these marks.
- OutboundMarks.QueueKeepsDiscipline: a worker cancelled once more while its lane call is leaving drops that call where it stands; `Outbound` by itself keeps a lane that refuses as one of its steps.
- InboundStore.RecoverAll: a read and the offers of its page are one look at the state; the order of rows is that of a pair of numbers standing for creation time and id; decoding of a row and the recoverer itself are not part of the model.
- InboundStore.ReserveAgainReturnsFirst: a repeated delivery under the very same id must also agree on the transport time, as the code demands.
- Lifecycle.LifecycleState.AcceptRaw: a parser that raises something other than a JSON or Unicode error would escape `feed`, and so does a commit frame, otherwise in order, whose nonce text is not ASCII, because `secrets.compare_digest` raises a TypeError for it; the model refuses that frame as a bad commit.
- Lifecycle.OrderedWriterIsAccepted: covers stage, ready and commit frames; the writer cuts a settings detail by characters and the parser measures bytes, so those frames are parsed but not written here.
- Codec.SameNormIffEqual: an object that is no JSON value equals nothing or whatever one given value equals; a `==` of its own making is left out.
- Codec.UniqueFields: JSON lexing is left out, a text is its tree; a float is a real value, -0.0 or not finite, and two finite floats have one text exactly when they are the same.
- MessageLog.Log.InsertRows: which of several bindings was linked before a missing one raised is not told, the transaction is rolled back in either case; timestamps, the metadata migration and session attributes are left out.
- MessageLog.Log.TransactOps: a callback is the list of its calls, each marked as swallowed or not; commits that SQLite itself refuses are left out.
- Follower.FollowedLog.CommitRows: commits of other processes wake nobody and are not modelled.
- FrameBook.ControlFrameBook.Resolve: a resolver gives its answer as a value; resolvers that raise, and the type checks on page rows, are left out.
- Backup.CreateSnapshot: an SQLite source counts as the file its online backup wrote; symbolic links, special files, flushing, sources that change during the copy, and pruning of old snapshots are left out.
- Backup.RestoreSnapshot: the refusals of a destination that exists or lies inside the snapshot, and the final rename, are left out.
- Backup.VerifySnapshot: the manifest file is checked for being there; its JSON structure and the normalisation of name strings are left out.
- History.Truncate: the line-count heading put before a truncated result is left out.
- RestartGate.CoreGate.PrepareRestart: the two refusals for an unsupervised process and a disabled runtime are one flag.
- RestartGate.CommittedMeansSent: speaks of runs whose commits go out while their preparation stands, because a resumed commit does not look again; `RestartGate.FlagFitsIffFresh` says exactly which steps break it.
- RestartRun.RestartsIffSentOnce: settings receipts between ready and commit, frames over the limit and writes that break off halfway are left out.
- RestartGate.ResumedCommitIsCurrent: says nothing of a request aborted and prepared again meanwhile, because the code does not look again; see `RestartGate.AbortedRequestIsCommitted`.
- The legacy inbound path of the message bus, raw mobile metadata validity, and the inbound queue of live envelopes.
- History rendering, proactive messages, session caches and projection grants.
- Artifact storage, channel identities, the event bus, timers, catalog ordering and attachment pages.
- Plugins, channels, web and settings surfaces, prompts, process and file-lock code.
