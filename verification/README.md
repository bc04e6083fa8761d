# Verified models of the Gemini Web gateway

This project states and proves what the stateful parts of the gateway keep over whole
runs, and what its small sequential algorithms compute.

**Durable cleanup.** `CleanupStore` is the table of deletion jobs and its repository.
`CleanupProtocol` runs any number of managers over one shared table. A manager's lock is
the call that holds it, and every repository call is one transaction, so the transactions
of other managers and the heartbeats of any worker fall between a call's read and its
write. A worker is named by the lease id its claim drew and stops at each `await` and each
lock boundary. `claims` and `starts` only count. `CleanupInvariant` is the invariant,
`CleanupSafety` the theorems about leases, withdrawal, accounting and versions,
`CleanupRetainMark` the fate of a retention mark, `CleanupCalls` what every call leaves and
promises, and `CleanupScenarios` the runs of two managers that pass over a mark.

**One manager's memory.** `CleanupManager` holds the pending, completed, in-flight and
observation maps and the generation counter of `RemoteChatCleanupManager`, one function and
one method for each section under its lock. `CleanupWork` runs schedules, timers, explicit
deletions, workers, callbacks and account switches over it in any order, using
`CleanupEvolution`; `CleanupDeadlines` says when its timers may delete. What the durable
table answers is an event parameter there.

**Operations.** `OperationStore` is the operations table: idempotent creation, updates,
leases.

**Client lifecycle.** `ClientLifecycle` is shared initialization, reset and retirement.

**Sessions.** `Sessions` is the handle service with its two locks for every handle and the
tasks that take them; `SessionSafety` is the invariant and `SessionTheorems` conservation,
expiry, resets and freedom from deadlock; `SessionScenarios` exhibits the runs that lose a
handle, and `SessionCalls` says what each call does to which session. `ChatRetention` is
the life of one session as `ChatService` drives it: which source chat must be retained,
and when it may be deleted.

**Sequential cores.** `StreamText`, `ArtifactMerge`, `Canvas` and `RequestInjection`
(over decoded `Json` values).

In every machine an event that is not enabled changes nothing, so each sequence of events
is a run, and a theorem about `Run` is about every interleaving. Clocks, fresh lease ids,
remote outcomes and the choice of the next step are event parameters. Classes carry the
source's fields and change them in place; each of their methods is proved equal to the
function that the theorems are about.

Where the code does not keep what one would expect, the code was followed:

- A retention mark is kept within one process and can be passed over between two, in two
  ways. The terminal section of a worker reads the row, then writes under its lease alone,
  without the version it read (src/remote_chat_cleanup_manager.py:799-811). And a claim
  whose first write lost a race reads the row again and claims it without a second look at
  the mark (src/remote_chat_cleanup_manager.py:705-709), so that a retained chat is deleted.
  `MarkKeptExactly` says exactly when the promise holds; `RetainMarkLostAcrossManagers` and
  `MarkedChatDeletedAcrossManagers` exhibit the runs.
- `record_cleanup_failure` carries no generation (src/remote_chat_cleanup_manager.py:960-983),
  so the failure of a deletion that began before an account switch becomes work of the new
  account, due at once (`LateFailureBecomesWork`). The same holds for any caller that
  schedules, deletes or times out without a generation; `LateStepsWriteExactly` says exactly
  when.
- An account switch lists the live jobs of its scope and cancels them one by one with the
  versions it read, so a row whose heartbeat comes in between is not cancelled
  (src/remote_chat_cleanup_manager.py:269-275; `SweepCancelsExactly`, `SweepMissesRenewal`).
- `store_session` writes over a live id, and a full reset that is cancelled drops the
  sessions it had detached; neither handle is ever handed out (`LostExactly`,
  `HandedOutExactly`, `CancelledResetDrops`).
- A waiter of a superseded initialization gets the reset error, except that an error of
  `client.init` already under way is passed on, and a task that had not begun is plainly
  cancelled (`OtherEndExactly`).
- A session that is not owned can show a chat id that nobody retains, for instance when a
  direct send held the send lock so that no owned chat was started (`BrokenExactly`,
  `PlainSessionExposed`).
- A chunk whose delta is its whole text is doubled when it arrives twice running
  (`LabelledStreamCollected`).
- Injecting attachments a second time adds them a second time or is refused
  (`InjectingTwice`).
- `renew` and `release` of an operation leave its version alone, so an operation's version
  is evidence about everything but the lease (`VersionWitnessesRead`, `VersionMissesRenewal`).
- `CleanupRepository.update` alone would revive a cancelled row and would drop the evidence
  of a completed one (`RepositoryAloneRevivesCancelled`, `RepositoryAloneDropsEvidence`); the
  manager's calls never ask for either.

Some lemmas only unfold one definition and are remarks beside the theorems: what
uninterrupted calls achieve (`RemoveAlone`, `ClaimAlone`, `EarlyClaimAlone`, `MarkAlone`,
`WorkAlone`, `FinishAlone`), the guard of an automatic start (`AutomaticStart`), the fence
of one step (`DisplacedIsFenced`), and an injected request (`OnlySelectedSlotsChange`,
`AttachmentsAreAppended`, `SelectorsAreNeverDropped`).

## Model

| member | source | states |
|---|---|---|
| CleanupStore.CleanupRepository.Upsert | src/infrastructure/state_store.py:404-417 | an existing job wins; completion needs observed absence; a taken job id is an error; nothing else changes |
| CleanupStore.CleanupRepository.Update | src/infrastructure/state_store.py:438-466 | the guards decide; an admitted update takes each named field from the change and keeps every other, and only a running row keeps its lease |
| CleanupStore.CleanupRepository.Claim | src/infrastructure/state_store.py:468-481 | grants exactly a due or expired row of the expected version: running, the new lease and deadline, one attempt more, all else as it was |
| CleanupStore.CleanupRepository.Renew | src/infrastructure/state_store.py:483-484 | only the holder of a running row renews, and then the deadline is the one asked for and nothing else moves |
| CleanupInvariant.StepKeeps | src/remote_chat_cleanup_manager.py:187-223 | every event of any manager or worker keeps the invariant and moves rows only forward |
| CleanupSafety.LeaseExclusivity | src/infrastructure/state_store.py:468-481 | a row changes hands exactly by a claim, only after the previous lease ran out, to a lease id never drawn before |
| CleanupSafety.DisplacedForever | src/infrastructure/state_store.py:438-484 | a worker that lost its row never gets it back in any continuation of any run, and can never again renew, begin a delete or write an end |
| CleanupSafety.WithdrawnForever | src/remote_chat_cleanup_manager.py:682-717 | completed rows never change, retained stay retained, cancelled may only become retained; none is claimed and no new worker arises |
| CleanupSafety.DeleteAccounting | src/infrastructure/state_store.py:478-479 | attempts equal the claims granted, and deletes begun never exceed attempts |
| CleanupSafety.ClaimsAreCounted | src/infrastructure/state_store.py:468-481 | the claim count moves exactly when a row passes to a new lease |
| CleanupSafety.StartsAreAuthorized | src/remote_chat_cleanup_manager.py:768-778 | a remote delete begins only under the worker's own lease on a running row in the worker's generation, once per worker |
| CleanupSafety.RowsWellFormed | src/infrastructure/state_store.py:455-461 | running exactly with a lease; completed implies verified absence |
| CleanupSafety.WritesRaiseVersion | src/infrastructure/state_store.py:458-465 | every changed row has a higher version |
| CleanupSafety.EditSawRow | src/infrastructure/state_store.py:453-466 | a conditional edit takes effect exactly if the row is as it was read |
| CleanupRetainMark.MarkLostExactly | src/remote_chat_cleanup_manager.py:795-811 | with any number of managers, the state of a marked row stops being honoured exactly by a terminal write that read the row before it was marked |
| CleanupRetainMark.MarkedGrantedExactly | src/remote_chat_cleanup_manager.py:704-717 | with any number of managers, a marked row is claimed exactly by a plan that read it as marked and expired |
| CleanupRetainMark.OnlyRereadClaimsMarked | src/remote_chat_cleanup_manager.py:704-709 | such a plan arises exactly when a claim whose first write lost a race reads the row again and finds it marked |
| CleanupRetainMark.MarkKeptExactly | src/remote_chat_cleanup_manager.py:197-213 | with any number of managers and over any run, a mark is kept and the row never claimed again, at every point, if and only if no terminal write overlooks it and no such plan claims it |
| CleanupRetainMark.RetainMarkKept | src/remote_chat_cleanup_manager.py:197-213 | with one manager neither happens: a marked row stays running and marked, or ends verified, retained or cancelled, and is never claimed again |
| CleanupScenarios.BackoffGrows | src/remote_chat_cleanup_manager.py:809 | the backoff is 2 to the attempts up to 1024 seconds, never above an hour, never shrinking |
| CleanupScenarios.MarkLostBetween | src/remote_chat_cleanup_manager.py:795-811 | the interleaving of two managers that loses a mark, from every state that allows it |
| CleanupScenarios.RetainMarkLostAcrossManagers | src/remote_chat_cleanup_manager.py:197-213 | such a state is reached: a marked row ends up failed |
| CleanupScenarios.MarkedReclaimed | src/remote_chat_cleanup_manager.py:704-709 | from every state in which a claim lost its race to a mark whose lease has run out, the marked row is claimed with no mark overlooked |
| CleanupScenarios.MarkedChatDeletedAcrossManagers | src/remote_chat_cleanup_manager.py:704-778 | such a state is reached from an empty table, and the retained chat's remote delete begins |
| CleanupCalls.RetainedForGood | src/remote_chat_cleanup_manager.py:200-213 | a retention of a row that is neither completed nor running under a live lease leaves it retained by request, and no step of any later run claims it |
| CleanupCalls.RunningIsMarked | src/remote_chat_cleanup_manager.py:202-206 | a row under a live lease is marked and runs on under that lease and deadline |
| CleanupCalls.CancelledForGood | src/remote_chat_cleanup_manager.py:1096-1112 | a cancellation leaves a live row cancelled by request, and no step of any later run claims it |
| CleanupCalls.FirstScheduleStores | src/remote_chat_cleanup_manager.py:171-178 | a first schedule stores one pending job, due when it was asked for |
| CleanupCalls.EarlierScheduleMoves | src/remote_chat_cleanup_manager.py:216-219 | an explicit earlier delay moves a waiting job's due time to exactly what was asked, and only that |
| CleanupCalls.RepeatedScheduleLeaves | src/remote_chat_cleanup_manager.py:214-220 | any other repetition leaves the job as it is |
| CleanupCalls.HeartbeatProtects | src/remote_chat_cleanup_manager.py:719-730 | a heartbeat moves the deadline to one lease after its time and nothing else, and over any run nobody takes the row from under that lease before |
| CleanupCalls.ReadyRowIsClaimed | src/remote_chat_cleanup_manager.py:704-717 | a due or expired row is granted to its caller with lease, deadline, attempt and worker |
| CleanupCalls.WaitingRowIsClaimed | src/remote_chat_cleanup_manager.py:704-717 | an explicit claim makes a waiting job due and takes it |
| CleanupCalls.UnknownChatIsEnqueued | src/remote_chat_cleanup_manager.py:690-693 | a chat without a job is enqueued, due at once, only if it may be kept durably |
| CleanupCalls.OtherRowIsNotClaimed | src/remote_chat_cleanup_manager.py:694-715 | a settled row, a live lease, a job not due or a changed version: nothing is claimed or written |
| CleanupCalls.MarkedRowIsRetained | src/remote_chat_cleanup_manager.py:697-703 | a marked row whose lease has run out becomes retained instead of claimed |
| CleanupCalls.AbsenceEndsVerified | src/remote_chat_cleanup_manager.py:763-767 | on a later attempt positive absence completes without a second delete |
| CleanupCalls.PresenceDeletes | src/remote_chat_cleanup_manager.py:765-778 | without it the delete begins |
| CleanupCalls.SweepCancelsExactly | src/remote_chat_cleanup_manager.py:265-275 | a switch cancels a listed row exactly if nobody wrote it since it was listed |
| CleanupCalls.SweepMissesRenewal | src/remote_chat_cleanup_manager.py:269-275 | a heartbeat between listing and write keeps a running row from being cancelled |
| CleanupCalls.SwitchCancelsScope | src/remote_chat_cleanup_manager.py:265-294 | an uninterrupted switch cancels every live job of its scope, touches no other row, and ends the generation |
| CleanupManager.RemoteChatCleanupManager.StoreObservation | src/remote_chat_cleanup_manager.py:310-313 | an observation of an older generation never replaces a newer one |
| CleanupManager.RemoteChatCleanupManager.CancelledForGeneration | src/remote_chat_cleanup_manager.py:315-340 | one cancellation per chat and generation, answered again when asked again |
| CleanupManager.RemoteChatCleanupManager.AdoptRecord | src/remote_chat_cleanup_manager.py:132-158 | the local maps follow a durable row |
| CleanupManager.RemoteChatCleanupManager.StorageFailed | src/remote_chat_cleanup_manager.py:180-185 | a storage failure suspends the chat and is observed |
| CleanupManager.RemoteChatCleanupManager.ScheduleInMemory | src/remote_chat_cleanup_manager.py:435-494 | a new task gets exactly the deadline asked for; an explicit earlier one becomes the deadline; retention drops; anything else leaves the task |
| CleanupManager.RemoteChatCleanupManager.ClaimWork | src/remote_chat_cleanup_manager.py:609-666 | who deletes a chat: an old generation, a missing scope, a stale decision, a completed or running deletion, or a new worker |
| CleanupManager.RemoteChatCleanupManager.CountAttempt | src/remote_chat_cleanup_manager.py:843-859 | the attempt is counted on the pending task, in the current generation only |
| CleanupManager.RemoteChatCleanupManager.PublishCompleted | src/remote_chat_cleanup_manager.py:906-921 | a verified deletion is published in its own generation only |
| CleanupManager.RemoteChatCleanupManager.NoteFailure | src/remote_chat_cleanup_manager.py:923-950 | a failure keeps its attempts on the pending task, in its own generation only |
| CleanupManager.RemoteChatCleanupManager.FinishDelete | src/remote_chat_cleanup_manager.py:822-826 | the done-callback releases only its own entry |
| CleanupManager.RemoteChatCleanupManager.InvalidateAuthenticationContext | src/remote_chat_cleanup_manager.py:276-289 | the switch cancels each old valid chat once and drops all work |
| CleanupManager.RemoteChatCleanupManager.RecordWaitTimeout | src/remote_chat_cleanup_manager.py:978-1024 | an expired wait leaves a settled observation alone and otherwise keeps the chat pending |
| CleanupManager.SwitchCancels | src/remote_chat_cleanup_manager.py:265-294 | what a switch leaves: no work, one cancellation per listed chat under the old generation, newer observations untouched |
| CleanupManager.AdoptFollows | src/remote_chat_cleanup_manager.py:132-158 | following a durable row leaves its task with the row's due time, or the later of due time and lease end while it runs, its completion and its state |
| CleanupManager.AdmitDecides | src/remote_chat_cleanup_manager.py:609-666 | who deletes a chat, guard by guard, and what each answer leaves |
| CleanupManager.RemoteChatCleanupManager.ScheduleCleanup | src/remote_chat_cleanup_manager.py:418-494 | the locked section of a schedule, with the durable answer |
| CleanupManager.ScheduleAnswers | src/remote_chat_cleanup_manager.py:205-223 | a retention of a marked row drops the task; every other answer follows the row |
| CleanupManager.RemoteChatCleanupManager.LeaveWithoutAuthority | src/remote_chat_cleanup_manager.py:752-760 | a worker whose authority is gone follows the row it sees, in its own generation only |
| CleanupManager.RemoteChatCleanupManager.EndDurableDelete | src/remote_chat_cleanup_manager.py:796-820 | the terminal section follows the written row, or suspends the chat when the write failed |
| CleanupWork.OldGenerationIsInert | src/remote_chat_cleanup_manager.py:834-958 | no step that carries another generation changes anything but the cancellation record of one chat |
| CleanupWork.LateStepsWriteExactly | src/remote_chat_cleanup_manager.py:923-978 | a step that began before an account switch changes the pending or completed map if and only if it carries no generation and its entry's guard holds |
| CleanupWork.LateFailureBecomesWork | src/remote_chat_cleanup_manager.py:960-983 | the run: a failure recorded after the switch is pending work of the new account, and an automatic deletion starts on it |
| CleanupWork.ObservationsOnlyAdvance | src/remote_chat_cleanup_manager.py:310-313 | observation generations and the generation counter never decrease over any run |
| CleanupWork.LateResultNeverReplaces | src/remote_chat_cleanup_manager.py:310-340 | a late old result never replaces a newer observation |
| CleanupWork.OneLiveWorker | src/remote_chat_cleanup_manager.py:639-667 | at most one live worker per chat and generation in every reachable state |
| CleanupWork.OneCompletion | src/remote_chat_cleanup_manager.py:629-637 | at most one worker per chat and generation ever finishes completed |
| CleanupWork.OldDecisionNeverDeletes | src/remote_chat_cleanup_manager.py:532-551 | a decision that was retained, replaced or rescheduled starts no worker in any later state |
| CleanupWork.RetainWithdraws | src/remote_chat_cleanup_manager.py:197-213 | retention withdraws a current decision on a chat exactly when it takes effect: not already completed, or a durable row that is settled, marked or newer than the task |
| CleanupDeadlines.NotStartedEarly | src/remote_chat_cleanup_manager.py:532-551 | over any run without an explicit earlier request for the chat, no automatic deletion starts on a pending task before its deadline |
| CleanupDeadlines.NotDeletedEarly | src/remote_chat_cleanup_manager.py:475-494 | a chat scheduled for the first time has exactly the deadline asked for, and is not deleted automatically before it |
| CleanupDeadlines.AdoptedDeadline | src/remote_chat_cleanup_manager.py:143-151 | a task that follows a durable row is due when the row is, or when its lease ends if that is later |
| CleanupDeadlines.DeletionCompletes | src/remote_chat_cleanup_manager.py:834-921 | an uninterrupted deletion that succeeds leaves the chat completed, not pending and released |
| CleanupDeadlines.DeletionFails | src/remote_chat_cleanup_manager.py:834-958 | one that fails leaves it pending at its old deadline with the attempt counted, and released |
| CleanupDeadlines.DurableDeletionStarts | src/remote_chat_cleanup_manager.py:639-667 | a granted claim starts a worker that carries the counted attempt |
| CleanupDeadlines.DurableWorkerFollows | src/remote_chat_cleanup_manager.py:752-815 | a durable worker follows the row it wrote or saw and reports its state |
| CleanupDeadlines.FailedWriteSuspends | src/remote_chat_cleanup_manager.py:816-820 | a failed terminal write suspends the chat and leaves its work alone |
| OperationStore.OperationRepository.Create | src/infrastructure/state_store.py:298-326 | a key returns its operation, another kind under the key is refused, otherwise the record is inserted |
| OperationStore.OperationRepository.Update | src/infrastructure/state_store.py:333-369 | guards, terminal states and requested cancellation decide the state; each named field is taken and all else kept |
| OperationStore.OperationRepository.Claim | src/infrastructure/state_store.py:371-382 | grants exactly a live operation whose lease has run out |
| OperationStore.OperationRepository.Renew | src/infrastructure/state_store.py:384-388 | moves the deadline only for the holder |
| OperationStore.OperationRepository.Release | src/infrastructure/state_store.py:390-393 | gives up the lease only for the holder |
| OperationStore.TerminalForever | src/infrastructure/state_store.py:349-359 | completed, cancelled and expired operations keep their state over any run |
| OperationStore.CancelRequestHolds | src/infrastructure/state_store.py:354-359 | a requested cancellation stays requested until the operation is over |
| OperationStore.LeaseExclusivity | src/infrastructure/state_store.py:371-382 | an operation passes to another lease exactly by a claim of a live operation after the previous lease ran out, under a fresh id |
| OperationStore.DisplacedForever | src/infrastructure/state_store.py:384-393 | a displaced lease never renews, releases or commits again |
| OperationStore.VersionWitnessesRead | src/infrastructure/state_store.py:346-360 | an update with a version is admitted if and only if the operation is the one read, up to its lease |
| OperationStore.VersionMissesRenewal | src/infrastructure/state_store.py:384-388 | the run: a versioned update succeeds although the lease was renewed since the read |
| OperationStore.OneOperationPerKey | src/infrastructure/state_store.py:316-325 | a key names at most one operation of its scope |
| OperationStore.CreateIsIdempotent | src/infrastructure/state_store.py:316-326 | creating again under a key answers with the operation that has it, after any run |
| ClientLifecycle.ClientManager.GetClient | src/client_manager.py:140-145 | a client is made on demand under the lock |
| ClientLifecycle.ClientManager.ShareInitialization | src/client_manager.py:170-187 | an initialized client is answered, an unfinished task joined or refused on another loop, another client sent back, and only else a task registered |
| ClientLifecycle.ClientManager.PublishInitialized | src/client_manager.py:220-224 | only a task that is not superseded publishes |
| ClientLifecycle.ClientManager.ForgetTask | src/client_manager.py:232-235 | a task removes only its own registration |
| ClientLifecycle.ClientManager.DetachCurrentClient | src/client_manager.py:279-292 | client, task and publication are taken off together, under a new generation |
| ClientLifecycle.InitializedMeansCurrent | src/client_manager.py:220-226 | initialized means a task of the current generation and client saw init return and published |
| ClientLifecycle.InitializeAnswers | src/client_manager.py:164-190 | in every reachable state: the initialized current client is answered, its unfinished task joined or refused, and else a task made |
| ClientLifecycle.InitializeRegisters | src/client_manager.py:176-187 | a task is registered exactly when the caller's client is current, not initialized, and no task of the generation is unfinished |
| ClientLifecycle.ReadyForGood | src/client_manager.py:164-235 | once published, over any run without a reset no task is registered and no attempt started |
| ClientLifecycle.AttemptStarts | src/client_manager.py:197-204 | an attempt starts exactly while its client is current, else the reset error |
| ClientLifecycle.FailureRetriesExactly | src/client_manager.py:214-219 | a transient failure is retried up to three attempts in all, any other passed on |
| ClientLifecycle.InitializationSucceeds | src/client_manager.py:164-235 | an uninterrupted initialization publishes its client after one attempt |
| ClientLifecycle.CloseExactly | src/client_manager.py:333-359 | a retirement closes exactly when its init task has ended, or inside it |
| ClientLifecycle.OneUnfinishedTask | src/client_manager.py:176-187 | at most one initialization task per generation is unfinished |
| ClientLifecycle.NoClientNoAttempt | src/client_manager.py:201-202 | a task registered while there was no client starts no attempt and returns nothing |
| ClientLifecycle.OvertakenNeverPublishes | src/client_manager.py:197-235 | a superseded task never publishes, starts no further attempt and returns no client |
| ClientLifecycle.OtherEndExactly | src/client_manager.py:204-230 | the waiters of a superseded task can see something else than the reset error if and only if init was running or the task had not begun |
| ClientLifecycle.BothAreReached | src/client_manager.py:204-230 | both cases are reached |
| ClientLifecycle.RetirementConservation | src/client_manager.py:279-292 | every client ever made is current or detached exactly once into its own retirement |
| ClientLifecycle.ClosedAfterInit | src/client_manager.py:333-359 | a client closes only after its init tasks ended, or inside that very task |
| Sessions.SessionService.CleanExpired | src/session_manager.py:462-476 | old handles with both locks free move to the expired queue in order |
| Sessions.SessionService.CreateSession | src/session_manager.py:215-245 | expired handles are cleaned and a new handle goes under an id that no live session has |
| Sessions.SessionService.StoreSession | src/session_manager.py:247-273 | a new handle goes under the given id, over whatever it named |
| Sessions.SessionService.ResetOneNow | src/session_manager.py:389-400 | takes out exactly one session if the id names a live one that does not expire, and none otherwise |
| Sessions.SessionService.ResetAllNow | src/session_manager.py:402-410 | all live handles are taken out |
| Sessions.SessionService.RemoveSame | src/session_manager.py:420-426 | the handle is taken out exactly if its id still names it |
| Sessions.SessionService.InvalidateAuthenticationContext | src/session_manager.py:439-448 | live and expired handles are taken out and marked |
| Sessions.SessionService.DrainExpired | src/session_manager.py:455-460 | the expired queue is handed out once |
| SessionSafety.StepPlaces | src/session_manager.py:215-476 | every step keeps each handle in one place and live ids distinct |
| SessionSafety.StepLocks | src/session_manager.py:299-427 | every step keeps each lock owned by exactly the task that stands where it holds it |
| SessionTheorems.OnePlace | src/session_manager.py:402-460 | each handle is in exactly one of live, expired, collected by an unfinished full reset, handed out once, written over, or dropped |
| SessionTheorems.LostExactly | src/session_manager.py:247-427 | a handle is lost exactly when store_session writes over its live id or a full reset that collected it is cancelled |
| SessionTheorems.HandedOutExactly | src/session_manager.py:370-460 | a handle can be handed out, now or later, if and only if it was neither written over nor collected by a full reset that was cancelled |
| SessionScenarios.CancelledResetDrops | src/session_manager.py:412-427 | the run: a full reset cancelled halfway drops the session it had detached |
| SessionScenarios.OverwrittenIsLost | src/session_manager.py:247-273 | the run: a session written over is never handed out |
| SessionTheorems.ExpiryNeedsFreeLocks | src/session_manager.py:465-474 | a step expires only a live, too old handle of which no task holds a lock |
| SessionTheorems.ResetTakesItsOwn | src/session_manager.py:370-427 | an asynchronous reset takes exactly the handle it waited for, if still live, and no session that reused the id |
| SessionTheorems.OvertakenSendReportsChange | src/session_manager.py:312-321 | a send overtaken by an account switch never reports success |
| SessionCalls.LookupExpiresExactly | src/session_manager.py:462-476 | exactly the live, too old, unlocked handles expire, at the end of the queue |
| SessionCalls.ResetOneTakes | src/session_manager.py:389-400 | exactly the live session the id names is taken out and removed; without one nothing is |
| SessionCalls.ResetAllTakes | src/session_manager.py:402-410 | every live session that does not expire is taken out and removed |
| SessionCalls.InvalidateTakes | src/session_manager.py:439-448 | every live and expired session is taken out, removed and marked |
| SessionCalls.DrainTakes | src/session_manager.py:455-460 | the queue is handed out, and nothing else changes |
| SessionCalls.CreateAdds | src/session_manager.py:226-245 | a session is added under an id that names none; an id that names one is refused |
| SessionCalls.StoreReplaces | src/session_manager.py:260-273 | the live session of the id is replaced in its place, or one added |
| SessionCalls.SendCompletes | src/session_manager.py:299-329 | a send takes the send lock of its live session, and leaves it free with its own outcome |
| SessionCalls.WorkflowCompletes | src/services/chat.py:281-296 | a workflow sends, reads back, and leaves both locks free |
| SessionCalls.ResetOneCompletes | src/session_manager.py:370-387 | an asynchronous reset takes both locks, then exactly its session |
| SessionCalls.FullResetCompletes | src/session_manager.py:412-427 | a full reset takes out every live session and returns them all in order |
| SessionCalls.GoneIsNotFound | src/session_manager.py:306-310 | a task whose session was taken out reports that and keeps no lock |
| SessionTheorems.SenderNeverWaits | src/services/chat.py:281-296 | no task that holds a send lock waits for a session lock |
| SessionTheorems.NoCircularWait | src/session_manager.py:299-427 | chains of waiting tasks have at most three members and never close |
| SessionTheorems.SomeoneCanMove | src/session_manager.py:299-427 | while a task is unfinished some task is not blocked |
| SessionTheorems.MoveShortens | src/session_manager.py:299-427 | each move of an unblocked task lowers the work that is left |
| SessionTheorems.EveryoneFinishes | src/session_manager.py:299-427 | from every reachable state all tasks come to their end without a cancellation |
| ChatRetention.ChatSession.StartSend | src/services/chat.py:298-333 | what a send refuses, adopts, flags and retains before it submits |
| ChatRetention.ChatSession.ObserveChat | src/thinking_client.py:87-92 | an owned session reports each new chat id at once |
| ChatRetention.ChatSession.FailSend | src/services/chat.py:342-349 | a cancelled or failed send keeps the source and stays pending |
| ChatRetention.ChatSession.FinishSend | src/services/chat.py:352-368 | an answer ends recovery; the cleanup decision follows the strategy, or waits for the Task |
| ChatRetention.ChatSession.FinishTask | src/services/chat.py:359-368 | a Task that is not terminal retains the source, a terminal one follows the policy |
| ChatRetention.ChatSession.RefuseSend | src/session_manager.py:312-321 | a refused send keeps the flags and remembers the late answer's chat |
| ChatRetention.StartSets | src/services/chat.py:301-333 | flags, adopted session and phase of a send that starts, field by field |
| ChatRetention.StartRetains | src/services/chat.py:329-332 | the known source is retained at once, unless neither a Task is watched nor chats are owned |
| ChatRetention.AnswerDecides | src/services/chat.py:606-652 | without a Task the one decision follows strategy and the request's own retain flag over the session's |
| ChatRetention.BrokenExactly | src/services/chat.py:313-346 | a step breaks the retention of a pending source exactly if a session that is not owned shows an id not retained, or the client has no owned chats |
| ChatRetention.RetainedThroughout | src/services/chat.py:298-381 | without such a step a pending source is retained at every point of the run |
| ChatRetention.PendingSourceRetained | src/services/chat.py:298-381 | for clients with owned chats, and no direct send before the session is owned, the last decision for a pending, known source is to retain it, at every point of a session's life |
| ChatRetention.PlainSessionExposed | src/services/chat.py:323-332 | a direct send in progress leaves the session plain, and its source then goes unretained |
| ChatRetention.DeletionsWereSettled | src/services/chat.py:606-652 | every decision that allows deletion follows a received response whose Task, if any, read back as terminal |
| StreamText.StreamTextAccumulator.Consume | src/services/streams.py:44-91 | which piece each kind of chunk adds, what it is taken for, and how the counts move |
| StreamText.StreamTextAccumulator.Metadata | src/services/streams.py:28-42 | empty, single or mixed semantics exactly as observed |
| StreamText.CollectedIsJoined | src/services/streams.py:44-62 | the text is the concatenation of all returned pieces |
| StreamText.FullTextReached | src/services/streams.py:64-77 | when a chunk with a full text leaves exactly that text |
| StreamText.LabelledStreamCollected | src/services/streams.py:64-77 | for labelled streams with losses and repetitions the text is always the last full text, if and only if no all-delta chunk arrives twice running |
| StreamText.UnlabelledStreamCollected | src/services/streams.py:79-91 | for unlabelled texts in any order the longest is left if and only if all are prefixes one of another, which is when none is taken for a delta |
| ArtifactMerge.MergeArtifacts | src/services/artifacts.py:475-504 | the loop over dictionary and order computes the merge of all groups |
| ArtifactMerge.MergedInFirstSeenOrder | src/services/artifacts.py:477-484 | ids are distinct and in first-seen order |
| ArtifactMerge.MergedById | src/services/artifacts.py:475-504 | the artifact of an id depends only on the inputs of that id |
| ArtifactMerge.LeadDecides | src/services/artifacts.py:485-489 | the newest input of the highest rank decides state, kind, verification and every field it fills |
| ArtifactMerge.BestStateWins | src/services/artifacts.py:485-489 | local before remote before queued; among empty and failed ones the newest |
| ArtifactMerge.FieldsHaveASource | src/services/artifacts.py:486-502 | every field comes from an input; measured fields of a result that did not fail come from inputs that did not fail, a local path from a local one |
| ArtifactMerge.OpenFieldsAreKept | src/services/artifacts.py:490-502 | titles, locations, sources and backends are empty only if no input had one |
| ArtifactMerge.MergeInParts | src/services/artifacts.py:475-504 | merging a merged part with the rest is merging everything at once |
| Canvas.ReplacePlainDocument | src/infrastructure/canvas_contracts.py:79-92 | refuses with the validator's error, or rewrites the document |
| Canvas.MatchStructured | src/infrastructure/canvas_contracts.py:102-122 | the loop reads the nodes as the text, up to the normalization |
| Canvas.AcceptedExactly | src/infrastructure/canvas_contracts.py:25-76 | the editor accepts exactly the plain documents: kind 1, no other variant, no attachments or citations, text paragraphs that only format |
| Canvas.RewriteIsAccepted | src/infrastructure/canvas_contracts.py:57-92 | a rewritten document is accepted and differs in its four content slots only |
| Canvas.RewriteMatchesItsText | src/infrastructure/canvas_contracts.py:79-99 | a rewritten document matches its text and no other |
| Canvas.LastRewriteWins | src/infrastructure/canvas_contracts.py:79-92 | a second rewrite depends on the second text alone |
| Canvas.MatchMeansSameText | src/infrastructure/canvas_contracts.py:95-122 | an accepted read-back shows the text in both structured copies, but for outer blanks and line feeds |
| Canvas.SplitTextMatches | src/infrastructure/canvas_contracts.py:102-122 | text that was parsed into titles and paragraphs is recognized |
| RequestInjection.InjectPayload | src/thinking_client.py:298-361 | the stepwise extension and overwriting yields each slot as specified, or the first error that applies |
| RequestInjection.AcceptedExactly | src/thinking_client.py:298-356 | what is accepted, by the recorded lengths and slots |
| RequestInjection.SelectorsLand | src/thinking_client.py:316-361 | slots 49, 83, 54/55 and 79/80 hold their selectors, the companion value is the one leaf at its field's path, and other slots stay |
| RequestInjection.InjectingTwice | src/thinking_client.py:248-366 | injecting twice is injecting once if and only if there are no attachments |
| RequestInjection.InjectedRequest | src/thinking_client.py:264-366 | other fields and the envelope stay; a second injection without attachments adds nothing |

## Left out

- SQLite: transactions are atomic; schema, migrations, busy retries, file permissions, identifier validation and the scope digest are not modelled.
- Pruning and deleting rows: row theorems speak of one incarnation of a row.
- Paging: a switch lists all live jobs of its scope in one read before it cancels them one by one.
- Columns that no transaction looks at (sources, diagnostic ids, resource types, artifacts) are dropped or kept as one field.
- Cleanup protocol on values: its calls interleave between transactions of several processes, which no class method expresses; the repository and the maps under the lock are classes.
- Job identifiers: a collision of two random job ids fails the insertion as the store does, and is then not retried.
- The registry of timers: any automatic decision may fire at any time, which covers every arming, cancelling and re-arming of a delay.
- CleanupManager.RemoteChatCleanupManager.InvalidateAuthenticationContext: does not model the sorted order in which chats are cancelled, because the cancellations of different chats commute; the cancelled asyncio tasks appear as interrupted workers.
- Lists of due jobs and their limit: each due job is one automatic deletion.
- Remote services, read-back and client initialization: any outcome, exception or cancellation may happen.
- asyncio and threads: steps between awaits and under a lock are atomic; waiters of a lock may be served in any order, and cancelled at any time.
- ClientLifecycle: does not model cookies, configuration, timeouts, the event loop that owns a client, or a `close` that fails.
- ChatRetention: does not model one-shot generation, result payloads, or several sessions of one source; each session's own decisions are in its log.
- Json: does not model JSON text; decoding is assumed to invert encoding, and requests are decoded trees.
- Canvas: does not model the wording of errors or aliasing; a rewrite returns a new document as the deep copy does.
- RPC parsers and payload builders, request headers, media probing, tools, servers, cookies and browsers: I/O or one-shape checks.
