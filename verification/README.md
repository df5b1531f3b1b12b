# Verified model of the AutoFlow core

This project models the stateful core of AutoFlow and proves properties of it in Dafny. AutoFlow runs coding tasks
either on a server worker or on a user's own machine (a Local Runner). Four parts carry the state:

* **The runner reconnect protocol** (`ProtocolState`, `RunnerTransport`, `TaskQueue`, `MessageLog`, `Gateway`,
  `Reconnect*`). The runner persists a sequence counter, a map of pending messages and a watermark of server messages.
  The server keeps a log of both directions that ignores repeated sequence numbers, and replays its own messages from
  the watermark. `Reconnect` puts both ends and a lossy connection (two FIFO queues; losing it keeps a prefix of each)
  into one state machine. The runner process may die at any moment: between two steps, after a message was handled and
  before its watermark was saved, or inside the handler after any of its saves. The gateway may fail while it answers
  the first message of a session, at any point between recording a message and logging its Ack, or between logging a
  decision and marking it as sent. `TaskQueue` splits `next_task` and the handler's check of an assignment into their
  single reads and writes, which other threads may interleave. `ReconnectDelivery` proves delivery, `ReconnectOpening`
  what a session starts from, `ReconnectOrder` and `ReconnectGaps` the order of handled messages and exactly when it is
  lost, `ReconnectConverge` convergence, `ReconnectControl` when the server cancels and assigns, `ReconnectAnswers` how
  the runner answers, `ReconnectBooks` the task queue and the sending of permission decisions, and `ReconnectRequests`
  the requests they answer, all over every run. `ReconnectRuns` builds the runs in which the exceptions happen.
* **The leased job queue** (`Tables`, `Storage`, `JobLedger`, `JobLaws`, `JobFairness`, `JobFairnessExact`,
  `QueuedTasks`, `Settlement`). Every storage method is one atomic step on the task and job tables. `JobLedger` keeps
  the books and proves lease exclusion, `JobLaws` tells from the rows alone when a failed job can be claimed again and
  what a recovery does, `JobFairness` bounded overtaking, `JobFairnessExact` that the bound is met, and `QueuedTasks`
  couples both tables to the program counters of the worker threads and of the starts, cancellations and assignments
  under way: there every single storage call is a step of its own. `Settlement` says what a worker's reading of the
  outcome leads to, what a runner's message leads to, and which steps queue a task.
* **The gated workflow** (`StageOrder`, `Workflow`, `Mirror`). Agents, the shell and git are oracles that may fail or
  answer anything; cancellation may be requested at any moment. `Mirror` relates the runner's task cache to the row the
  server keeps.
* **Sign-in codes by e-mail** (`EmailCodes`, `EmailLimits`, `EmailRuns`, `EmailFates`): cooldown, window per address,
  single use, a guess budget, and which code is accepted. A request's two checks, its clock reading and its creation
  are steps of their own, which other requests may interleave.

Each class mirrors a class of the source and updates its fields in place. Its methods are proved against pure functions
(the class's `View` before and after), and the run theorems are about those functions. Fields and datatype components
called history values in comments (`issued`, `handled`, `begun`, `dropped`, `decided`, `met`, `ledger`, `sent`, `wins`,
`unrecorded`, the workflow's log) are never read by the modelled code; they only let a theorem speak about the past.

## What the proofs found

* The gateway records a runner message before it runs its effect. If it fails in between, the message is acknowledged
  as a duplicate when it comes again, and its effect is lost for good. `ReconnectDelivery.NoMessageLostOrRepeated`:
  over every run, exactly as many effects are lost as such failures hit a new message, and none runs twice; a failure
  after the effect loses nothing. `ReconnectRuns.MessageIsLost` builds such a run from every start.
* The runner handles a server message first and saves the watermark afterwards. If its process dies in between, the
  message is replayed and handled a second time. `ReconnectGaps.RestartBreaksOrderIffHandling` shows that a restart
  breaks the order exactly then, and `ReconnectRuns.MessageHandledTwice` builds such a run from every start. A death
  inside the handler always breaks it (`ReconnectGaps.CrashBreaksOrder`). Delivery to the server and the numbering are
  not affected: they hold over all runs, whenever the process dies.
* A Reconnect refused for its version is answered with a logged `RegisterAck` but no replay. If the log already held
  messages beyond the runner's watermark, the watermark jumps over them for good
  (`ReconnectGaps.RefusalBreaksOrderIffItSkips`, `ReconnectRuns.RefusalLeavesGap`). In every run, the handled messages
  are one contiguous block of the log if and only if no handled message fails to follow its predecessor
  (`ReconnectGaps.OneBlockIffNoMisstep`).
* That refusal also acknowledges a Reconnect that is never recorded. `ReconnectOpening.AcknowledgementsAreEarned`: an
  acknowledgement names a recorded message if and only if it is not such a refusal.
* A refusal that was logged but never arrived is replayed to a runner whose version is accepted by now, and stops it.
  `ReconnectConverge.SessionDrainsIffNoRefusalIsReplayed` states exactly when a session can be run to the end, and
  `ReconnectRuns.RefusalIsReplayed` builds a run after which it cannot.
* A permission decision is logged before it is marked as sent. Each decision is logged exactly once if and only if no
  send of one failed (`ReconnectBooks.DecisionsAreSentOnceIff`, `ReconnectRuns.DecisionIsRepeated`). The requests
  themselves are decided at most once each, and only those the runner made
  (`ReconnectRequests.RequestsAreDecidedOnce`).
* `next_task` takes a task out of the set of queued identifiers before it makes it the active one, and the handler of
  an assignment reads the active task before it looks into that set. A task being worked on is queued a second time if
  and only if another assignment of it is checked while, at its look or since its first read, the task was in that gap
  (`ReconnectBooks.TaskDoublesIffReadsMeetTheGap`); `ReconnectRuns.TaskIsDoubled` builds a run, from every start, in
  which both halves of the gap lie between the two reads.
* `start` writes the task before its job, `cancel` the job before its task, and a dispatch leases before it marks the
  task as assigned. A queued task has a live job unless it is caught between two such writes
  (`QueuedTasks.QueuedTaskHasLiveJob`); a process that dies there strands it (`QueuedTasks.DeadStartStrandsTask`,
  `QueuedTasks.DeadCancellationStrandsTask`).
* A job whose lease expired on its last attempt is pending with no attempt left and is still leased once more. Counting
  only unused attempts bounds overtaking if and only if no older rival is in that state
  (`JobFairnessExact.PlainBoundIff`, with a run to such a state in `SpentRivalIsReached`).
  `JobFairness.OvertakingIsBounded` charges that lease to the expiry and always holds;
  `JobFairnessExact.BoundIsAttained` shows that it cannot be improved.
* The renewal schedule keeps a lease if and only if leases last at least two seconds
  (`JobLedger.ScheduleKeepsLeaseIff`); the configuration sets no lower limit.
* A completion message carries no stage, so the server's row follows the runner's only if the workflow has just entered
  the delivery stage; `Mirror.UpdateIsMirrored` gives the exact condition for every update.
* Specification and assessment are stored separately, so a run cut off in between can make the next one skip the
  alignment loop although none has succeeded. `Workflow.ResumedIsAlignedIff`: what is resumed has really been aligned
  if and only if the last specification was assessed after it was stored. `Workflow.CutOffAlignment` performs two
  alignment rounds that leave the other case behind.
* The source is patched before that is recorded. Over any number of runs it has been patched exactly once for the
  stored record and once for every run that ended in between (`Workflow.WorkflowEngine.RunGuarded`,
  `Workflow.SyncedTwice`).
* The e-mail limits are checked before the challenge is created, without a lock in between. A half-open window holds at
  most the limit plus the number of requests of the address that one request can find between check and creation
  (`EmailLimits.StoredChallengesAreLimited`), and that many are possible (`EmailRuns.OverlapIsAttained`). Codes of one
  e-mail are a cooldown apart in every run in which no request for it passes the check while another is past it
  (`EmailLimits.StoredCodesAreSpaced`); two requests at once break that (`EmailRuns.OverlapBreaksSpacing`).
* A closed window of the same length can hold up to twice as many, and no more (`EmailRuns.ClosedWindowMayHoldTwice`,
  `EmailLimits.ClosedWindowHoldsAtMostTwice`).

## Model

| member | source | states |
|---|---|---|
| RunnerState.InOrderContents | app/runner_transport.py:78-80 | the pending list holds exactly the pending messages |
| RunnerState.InOrderAscends | app/runner_transport.py:78-80 | the pending list is in strictly ascending sequence order |
| RunnerState.RebuildContents | app/runner_transport.py:91-94 | rebuilding the map from a list keys every item by its own sequence number and invents none |
| RunnerState.SaveLoadRoundTrip | app/runner_transport.py:82-118 | loading a saved state gives the same state back if and only if its counter is positive and every pending message sits under its own number |
| RunnerState.ProtocolState.constructor | app/runner_transport.py:23-96 | a new object holds what its file says, whether the file is missing, whole or damaged at any field: everything before the damage is kept, and no pending message |
| RunnerState.ProtocolState.PendingMessages | app/runner_transport.py:78-80 | repeated selection of the least key yields the sorted pending list |
| RunnerState.ProtocolState.SaveLocked | app/runner_transport.py:98-118 | after a save, loading the file gives back the fields in memory |
| RunnerState.ProtocolState.NewMessage | app/runner_transport.py:33-52 | the counter advances by one, the message is pending under its number and both are persisted before it is returned |
| RunnerState.ProtocolState.AcknowledgeMessage | app/runner_transport.py:54-57 | exactly the named message leaves the pending map, and the file follows |
| RunnerState.ProtocolState.MarkServer | app/runner_transport.py:59-64 | the watermark never goes back |
| RunnerState.ProtocolState.MarkAsRegistered | app/runner_transport.py:66-69 | registration is persisted and nothing else changes |
| RunnerState.ProtocolState.Discard | app/runner_transport.py:71-76 | exactly the pending messages of one type are dropped |
| RunnerTransport.RunnerProtocolClient.SendMessage | app/runner_transport.py:186-202 | a message is numbered and persisted first, leaves only when the handshake is done and the connection stands, and only an Ack is forgotten at once |
| RunnerTransport.RunnerProtocolClient.AckServer | app/runner_transport.py:334-339 | an Ack names the message it answers |
| RunnerTransport.RunnerProtocolClient.Connect | app/runner_transport.py:219-226 | a connection opens with Register before the first acceptance and with Reconnect and the watermark ever after |
| RunnerTransport.RunnerProtocolClient.FlushPending | app/runner_transport.py:341-345 | a flush sends exactly the pending messages other than hellos, in order |
| RunnerTransport.RunnerProtocolClient.OnReadied | app/runner_transport.py:270-285 | a readying answer discards its hello, sets ready, flushes, and announces capabilities only after a registration |
| RunnerTransport.RunnerProtocolClient.OnTaskAssign | app/runner_transport.py:286-289 | an assignment is acknowledged and accepted every time, and its check begins |
| RunnerTransport.RunnerProtocolClient.CheckNext | app/runner_transport.py:290-292 | one read or write of the check: the active task, then the set of identifiers, then the queue |
| RunnerTransport.RunnerProtocolClient.HandleServerMessage | app/runner_transport.py:257-295 | the whole handler equals its two specified phases, the acknowledgement being absorbed first |
| RunnerTransport.RunnerProtocolClient.Receive | app/runner_transport.py:246-253 | the watermark moves only after the message has been handled |
| RunnerTransport.RunnerProtocolClient.NextTask | app/runner_transport.py:173-180 | undisturbed, next_task makes the oldest queued task the active one |
| RunnerTransport.RunnerProtocolClient.GetTask | app/runner_transport.py:175 | its first step: the oldest task leaves the queue, not yet the set of identifiers |
| RunnerTransport.RunnerProtocolClient.DiscardTaken | app/runner_transport.py:176 | its second step: the task leaves the set and is not yet active |
| RunnerTransport.RunnerProtocolClient.ActivateTaken | app/runner_transport.py:177 | its third step: the task taken becomes the active one |
| RunnerTransport.RunnerProtocolClient.TaskFinished | app/runner_transport.py:182-184 | only the active task can be finished |
| TaskQueue.MoveKeepsBooks | app/runner_transport.py:173-184 | whatever the threads interleave, every single read and write keeps queue and set of identifiers in step |
| TaskQueue.UndisturbedCheck | app/runner_transport.py:290-292 | with nothing in between, the check queues the task if and only if it is neither active nor queued |
| TaskQueue.MoveDoublesIff | app/runner_transport.py:290-292 | exactly which single read lets the task being worked on into the queue again |
| MessageLog.NextSeqIsFresh | app/storage.py:852-861 | the next sequence number is never one already in the table, whatever the table holds |
| MessageLog.DenseAppend | app/storage.py:852-888 | a table numbered by MAX + 1 alone stays numbered 1, 2, 3, ... |
| MessageLog.ReplayContents | app/storage.py:890-900 | replay lists exactly the rows above the watermark, in ascending order, for any table |
| MessageLog.DenseReplay | app/storage.py:890-900 | on such a table replay is exactly the tail after the watermark |
| MessageLog.RunnerMessages.NextSequence | app/storage.py:852-861 | returns a number no row has |
| MessageLog.RunnerMessages.Record | app/storage.py:863-888 | a row is added if and only if its number is new, and the result says which |
| Gateway.RunnerGatewaySession.SendMessage | app/gateway.py:387-405 | every message is numbered and logged before it is put on the wire |
| Gateway.RunnerGatewaySession.RegisterRunner | app/gateway.py:67-110 | a registration is logged even when refused; an acceptance makes the runner known and replays nothing |
| Gateway.RunnerGatewaySession.ReconnectRunner | app/gateway.py:112-164 | the three outcomes of a Reconnect: refused for its version, unknown runner, or logged and answered by the replay and then the answer |
| Gateway.RunnerGatewaySession.RunEffect | app/gateway.py:196-328 | each message type changes the task and job tables as specified, a runner's own tasks only |
| Gateway.RunnerGatewaySession.HandleMessage | app/gateway.py:185-329 | record first; an Ack is silent, a duplicate is only acknowledged, a new message has its effect and is acknowledged |
| Gateway.RunnerGatewaySession.FailMessage | app/gateway.py:189-329 | a handler that fails has recorded its message and has had its whole effect or none, and has logged no answer |
| Gateway.RunnerGatewaySession.FailHello | app/gateway.py:67-164 | a failed answer to a first message: it is recorded, a registered runner may be known by then, and the first rows of a replay may have been sent |
| Gateway.RunnerGatewaySession.Decide | app/storage.py:961-985 | a request that is open is closed and its decision waits, unsent, behind the earlier ones; a request that is missing or has been decided is refused and nothing changes |
| Gateway.RunnerGatewaySession.SendPermissionResult | app/gateway.py:335-346 | one decision is logged, sent and marked as sent |
| Gateway.RunnerGatewaySession.LosePermissionResult | app/gateway.py:336-346 | when the send fails the decision is logged and not marked |
| Gateway.RunnerGatewaySession.SendPermissionResults | app/gateway.py:335-346 | the unsent decisions go out in order, each logged, and none is unsent afterwards |
| Gateway.RunnerGatewaySession.SendControl | app/gateway.py:347-367 | a flagged active task that has not been told of in this session is sent a cancellation, any other is sent nothing; without an active task the oldest eligible job is leased and assigned |
| Gateway.RunnerGatewaySession.DispatchControl | app/gateway.py:331-367 | one pass: recover, send decisions, then the control message |
| ReconnectControl.ControlIsRight | app/gateway.py:331-367 | over every run a step logs a cancellation exactly if it is a pass that finds the runner's active task with the flag set and has not told of it in this session, and an assignment exactly if it is a pass that finds no active task and claims a job |
| ReconnectControl.PassFindsOldest | app/storage.py:836-850 | the task a pass finds is one the runner works on with its lease running, and none is older; it finds none only if there is none |
| ReconnectControl.SessionCancelsOnce | app/gateway.py:348-351 | within a session no task is told of twice |
| ReconnectControl.AssignmentIsLeased | app/gateway.py:352-367 | the job assigned was claimable, is leased to the runner one attempt further, and its task is marked as assigned |
| ReconnectControl.CancellationArrives | app/runner.py:236-242 | by the next control message and its handler a flag not yet told of reaches the row the runner has cached |
| ReconnectAnswers.ReceiptIsAnswered | app/runner_transport.py:286-295 | a handled message is answered at once: an assignment by an Ack and an acceptance, a cancellation or a permission result by an Ack, any other by nothing |
| ReconnectAnswers.MarkAnnounces | app/runner_transport.py:270-279 | capabilities are announced after a registration and only then |
| ReconnectAnswers.HandledIsAnswered | app/runner_transport.py:286-295 | over every run in which the process does not die inside the handler, everything handled that asks for an answer has been answered |
| ReconnectDelivery.StepKeepsDelivery | app/gateway.py:112-329 | every step of both ends and of the connection, and the death of the runner's process at any point, keeps the delivery invariant |
| ReconnectDelivery.NoMessageLostOrRepeated | app/gateway.py:185-193 | over every run: a message that left the pending map has had its effect unless the gateway failed between recording and completing it, exactly as many effects are lost as such failures hit a new message, and no effect runs twice |
| ReconnectDelivery.HandledHasEffect | app/gateway.py:185-329 | a new message whose handler does not fail has had its effect |
| ReconnectRuns.MessageIsLost | app/gateway.py:189-194 | from every start a run leads to a message that is acknowledged and no longer pending although its effect never completed |
| ReconnectDelivery.RunExtendsIssued | app/runner_transport.py:33-52 | numbers once given out keep their message through restarts and reconnects |
| ReconnectDelivery.NumbersAreNeverReused | app/runner_transport.py:33-121 | no number on the wire or in the log ever stands for two messages, and the persisted counter is beyond all of them |
| ReconnectDelivery.RestartKeeps | app/runner_transport.py:82-121 | a restart from the file at any moment, also while a message is being handled, loses nothing of the protocol state |
| ReconnectDelivery.CrashKeeps | app/runner_transport.py:257-295 | the same for a death inside the handler, after any number of its saves |
| ReconnectOrder.StepKeepsOrder | app/runner_transport.py:236-255 | every step except a skipping refusal and a death while handling keeps handled and incoming messages one block of the log |
| ReconnectOrder.HandledIsContiguous | app/gateway.py:112-164 | after any run without these two the handled messages are exactly a contiguous block of the server's log, each once and in order, ending at the watermark once handling is finished |
| ReconnectGaps.StepKeepsBlockIff | app/runner_transport.py:246-253 | one step of any kind leaves the handled messages one block if and only if they were and it does not handle a message that fails to follow |
| ReconnectGaps.OneBlockIffNoMisstep | app/runner_transport.py:246-253 | the same over every run, crashes and refusals included |
| ReconnectGaps.FirstAnswerFollowsIff | app/gateway.py:112-164 | in every reachable state: the first message of the answer to a Reconnect keeps the block if and only if the answer starts right after the last one handled |
| ReconnectGaps.RefusalBreaksOrderIffItSkips | app/gateway.py:121-133 | once the answer to a first message is handled, the block is intact if and only if that message was not a refused Reconnect below the end of the log |
| ReconnectGaps.RestartBreaksOrderIffHandling | app/runner_transport.py:250-251 | once the first answer after a restart is handled, the block is intact if and only if the process did not die while handling a message |
| ReconnectGaps.RestartRepeatsTheMessage | app/runner_transport.py:250-251 | and if it did, that first answer is the message it had been handling, once more |
| ReconnectGaps.CrashBreaksOrder | app/runner_transport.py:257-295 | after a death inside the handler of a registered runner the first answer never follows what was handled |
| ReconnectRuns.MessageHandledTwice | app/runner_transport.py:250-251 | from every start a run leads to a message handled twice in a row |
| ReconnectRuns.SkippingRun | app/gateway.py:121-133 | from every start a run leads to a first message that is about to be refused although the log holds more |
| ReconnectRuns.RefusalLeavesGap | app/gateway.py:121-133 | and one more exchange leaves a gap in what the runner has handled |
| ReconnectRuns.RefusalIsReplayed | app/gateway.py:152-164 | from every start a run leads to a runner that the server would accept and whose next session nevertheless cannot be finished |
| ReconnectOpening.StepKeepsOpening | app/runner_transport.py:204-234 | until a session is answered its hello is all there is on the connection, in every run |
| ReconnectOpening.AcknowledgementsAreEarned | app/gateway.py:380-385 | in every reachable state an acknowledgement names a recorded message if and only if it is not the refusal of a Reconnect, and everything in flight to the runner is logged |
| ReconnectConverge.ReachableIsReady | app/runner_transport.py:204-234 | every reachable state of a registered, disconnected runner with an accepted version satisfies what the session proofs ask for |
| ReconnectConverge.SessionDeliversPending | app/runner_transport.py:280-285 | from every reachable state: once an uninterrupted session is quiet, every application message pending at its start is acknowledged, and has had its effect if and only if no earlier session had dropped it, whatever else was sent meanwhile |
| ReconnectConverge.DeliveryShrinks | app/gateway.py:185-329 | every delivery leaves strictly less to deliver, so a session's own traffic ends |
| ReconnectConverge.Drains | app/runner_transport.py:236-295 | from every calm state a run of deliveries alone reaches quiescence |
| ReconnectConverge.SessionDrainsIffNoRefusalIsReplayed | app/gateway.py:152-164 | from every reachable state a session can be run to the end if and only if no refusal is among the rows to be replayed |
| ReconnectBooks.QueueHoldsEachTaskOnce | app/runner_transport.py:173-184 | in every reachable state the queue holds no task twice and agrees with the set of queued tasks |
| ReconnectBooks.TaskDoublesIffReadsMeetTheGap | app/runner_transport.py:173-180 | in every reachable state: the task being worked on is queued again if and only if the check of another assignment looks into the set of identifiers having met, since its first read, the time between the task's discard and its activation |
| ReconnectBooks.NoTaskDoubles | app/runner_transport.py:286-293 | over every run without such a look no task is queued while it is worked on |
| ReconnectRuns.TaskIsDoubled | app/runner_transport.py:290-292 | from every start a run leads to a task queued while it is being worked on: discarded and activated between the two reads of its check |
| ReconnectBooks.DecisionsAreSentOnceIff | app/gateway.py:335-346 | over every run every permission decision is logged at least once, in the order made, or still waits; one is repeated for each failed send, so each is logged once if and only if no such send failed |
| ReconnectRuns.DecisionIsRepeated | app/gateway.py:335-346 | from every start a run, from the runner's request on, logs a decision and leaves it to be sent again |
| ReconnectRequests.RequestsAreDecidedOnce | app/storage.py:916-985 | over every run the table holds exactly the requests made by the runner's messages; an open one has no decision and any other exactly one, on its task; without a failed send that is also how often it is answered |
| JobStorage.Storage.Enqueue | app/storage.py:130-160 | a new or reset pending job; a reset keeps the creation time |
| JobStorage.Storage.RecoverExpiredJobs | app/storage.py:169-192 | exactly the expired leases of the target go back, with their tasks, and are counted |
| JobStorage.Storage.OldestEligible | app/storage.py:219-227 | returns an eligible job of least creation time, and none only if there is none |
| JobStorage.Storage.Lease | app/storage.py:194-237 | recovery, then the claim of the oldest eligible job |
| JobStorage.Storage.Renew | app/storage.py:239-247 | succeeds exactly for the holder of a running lease |
| JobStorage.Storage.Complete | app/storage.py:256-265 | ends the job for its owner and does nothing for anybody else |
| JobStorage.Storage.Fail | app/storage.py:267-301 | while attempts remain the job is pending from base * 2^(k-1) later on and its task queued, otherwise the job has failed; and it says which |
| JobStorage.Storage.CancelPending | app/storage.py:303-310 | cancels a pending job only |
| JobStorage.Storage.Cleanup | app/storage.py:351-360 | removes old ended jobs only |
| JobStorage.Storage.ActiveTask | app/storage.py:836-850 | returns an active task of least creation time, and none only if there is none |
| JobStorage.Storage.CreatePermissionRequest | app/storage.py:916-942 | a request that is new is open; one that is known stays as it is |
| JobStorage.Storage.ResolvePermissionRequest | app/storage.py:961-985 | closes exactly an open request; anything else is refused without a change |
| JobStorage.Storage.Start | app/workflow.py:53-81 | refused unless the task is a draft or failed and its runner is registered or, without one, the agent routes are valid; otherwise queued with a fresh job and no cancellation |
| JobStorage.Storage.Cancel | app/workflow.py:83-94 | a queued task is cancelled with its pending job, any other unfinished one is only flagged |
| JobLedger.StepKeepsLedger | app/storage.py:130-310 | every step keeps attempts accounted for, and an owner and a deadline set exactly while leased |
| JobLedger.RunKeepsLedger | app/storage.py:169-301 | over every run: leases = retries + expiries + the one in hand or ended, hence at most max(1, max_attempts) plus expiries |
| JobLaws.FailedJobWaits | app/storage.py:267-301 | a job that fails at its k-th attempt with attempts left is, in every continuation without a new enqueue, claimed by nobody before base * 2^(k-1) later, and seen by the claim query from then on while it is left alone |
| JobLaws.TotalBackoff | app/storage.py:278-287 | over every run the delays written to the row of a job since it was enqueued add up to at most base * (2^(max_attempts - 1) - 1), with equality when all retries are used and no lease expired |
| JobLaws.AttemptsAddUp | app/storage.py:169-301 | over every run the attempts on the row are the retries and expiries seen in the run, one more while it is leased, and at most one more once it has ended |
| JobLaws.RecoveryRequeues | app/storage.py:169-192 | a recovery makes exactly the jobs whose leases have run out pending again and queues their tasks |
| JobLaws.LeaseClaims | app/storage.py:194-237 | the job a lease claims was claimable, and is leased one attempt further; every other job is as the recovery left it |
| JobLedger.LeaseIsExclusive | app/storage.py:169-237 | whatever others do, a lease its owner leaves alone lasts until its deadline, so successive leases never overlap |
| JobLedger.PunctualWorkerKeepsLease | app/worker.py:119-123 | with leases of two seconds or more, a worker renewing on schedule is never preempted |
| JobLedger.ShortLeaseIsLost | app/worker.py:119-123 | a lease of at most one second is over when its first renewal is due, and a recovery then takes it |
| JobLedger.ScheduleKeepsLeaseIff | app/worker.py:119-123 | the renewal schedule keeps the lease over every run if and only if leases last at least two seconds |
| JobLedger.LeaseIsThreeIntervals | app/worker.py:119-123 | three renewals fit into a lease, so two may be missed |
| JobFairness.ClaimIsOlder | app/storage.py:219-227 | every lease that passes over an eligible job goes to one at least as old |
| JobFairness.StepBudget | app/storage.py:194-301 | an overtaking uses up one lease of the older rivals' budget, and only an expiry without attempts left adds one |
| JobFairness.OvertakingIsBounded | app/storage.py:194-237 | while a job stays eligible and no row as old is enqueued, leases of its target that go to others number at most its older rivals' remaining leases plus their expiries without an attempt left |
| JobFairnessExact.BoundIsAttained | app/storage.py:194-301 | from every state some run meets that bound exactly |
| JobFairnessExact.BudgetIsUnusedAndSpent | app/storage.py:219-233 | the older rivals' remaining leases are their unused attempts plus one for each that is pending with none left |
| JobFairnessExact.PlainBoundIff | app/storage.py:219-233 | the claim query never tests attempts: unused attempts alone bound every run from a state if and only if no older rival is pending with none left |
| JobFairnessExact.SpentRivalIsReached | app/storage.py:169-237 | a run from empty tables reaches a state in which that simpler bound fails |
| QueuedTasks.StepKeepsCoupling | app/worker.py:71-117 | every single storage call of workers, gateway, users, recovery and cleanup keeps task and job tables coupled to the program counters |
| QueuedTasks.QueuedTaskHasLiveJob | app/workflow.py:53-94 | after every run from empty tables a queued task has a pending or leased job of its own target, unless a start, a cancellation or an assignment of it is between its two writes or died there |
| QueuedTasks.DeadStartStrandsTask | app/workflow.py:69-72 | a start that dies between its writes leaves a queued task without a job |
| QueuedTasks.DeadCancellationStrandsTask | app/workflow.py:87-92 | and so does a cancellation |
| QueuedTasks.QueueingReleasesJob | app/storage.py:169-301 | every step that queues a task takes its job from whoever held it; a start does so with its second write, until which the task is caught |
| QueuedTasks.LateWorkerLeavesQueuedTask | app/worker.py:83-114 | a worker that finishes late changes nothing once its task has been queued again, unless it still has the job of a task that is caught |
| QueuedTasks.QueuedTaskBecomesClaimable | app/storage.py:194-227 | once its delay and any lease have run out, a queued task's job is seen by the claim query if and only if it is live, and it is live unless the task is caught |
| QueuedTasks.EffectIsHandlerSteps | app/gateway.py:185-329 | the effect of every runner message is a sequence of the machine's storage calls |
| QueuedTasks.DeliverKeepsCoupling | app/gateway.py:185-329 | late runner messages never end the job of a queued task |
| QueuedTasks.UndisturbedStart | app/workflow.py:53-81 | a start with nothing in between is the whole operation |
| QueuedTasks.UndisturbedCancellation | app/workflow.py:83-94 | and so is a cancellation of a queued task |
| QueuedTasks.CancelRequestIsSticky | app/workflow.py:83-94 | a cancellation request survives every retry, recovery and message until the next start |
| QueuedTasks.DispatchIsSweepAndAssign | app/gateway.py:331-353 | a dispatch pass without an active task is a recovery, a lease and a write of the machine |
| QueuedTasks.DurableTaskWorker.TakeJob | app/worker.py:55-60 | the worker's lease is the state machine's step |
| QueuedTasks.DurableTaskWorker.ReadOutcome | app/worker.py:82 | the outcome is read once, separately from the run |
| QueuedTasks.DurableTaskWorker.SettleOutcome | app/worker.py:83-114 | the status read decides how the job ends, as Settlement.SettlementDecides spells out |
| Settlement.SettlementDecides | app/worker.py:83-114 | a worker that still owns the job: having read a failure or an unexpected status it makes the job pending and the task queued while attempts remain and fails the job otherwise; having read cancelled it cancels the job; having read a success it completes it |
| Settlement.ReadingIsCurrent | app/worker.py:82 | what it goes by is the status its task has when it looks |
| Settlement.DoneIff | app/worker.py:106-107 | a step makes a job of the server done if and only if a worker that owns it settles it having read a success |
| Settlement.ServerJobIsDoneByItsWorker | app/worker.py:106-107 | over every run from empty tables a job of the server is done only in this way |
| Settlement.QueuedIff | app/storage.py:169-301 | a task enters the queue exactly by a start, by the recovery of its lease, or by a failure that is retried; and only a draft or a failed task is started |
| Settlement.MessagesTouchOwnRowsOnly | app/gateway.py:185-329 | a runner's message touches only the rows of the task it is about, and those only as far as they are the runner's or held by it |
| Settlement.SignOfLifeLeadsTo | app/gateway.py:205-232 | acceptance and progress renew the lease and set the status; a request for permission makes the task wait |
| Settlement.OutcomeLeadsTo | app/gateway.py:302-328 | a completion, cancellation or failure ends the job the runner holds, and a failure with attempts left retries it |
| Settlement.HeartbeatRenews | app/gateway.py:196-204 | a busy runner's heartbeat renews the lease of its active task and changes nothing else |
| QueuedTasks.DurableTaskWorker.RenewLease | app/worker.py:119-123 | a renewal fails exactly when the lease is lost |
| StageOrder.AutomatonIsLanguage | app/workflow.py:697-704 | the stage automaton accepts a trace with at most n corrections if and only if it is a prefix of PRODUCT* PLANNER? READER? DESIGN? CODER? (R CODER)^i R DELIVERY with i at most n and R = BUILD TEST TEST? REVIEW ACCEPTANCE |
| Workflow.HoldsIsFiled | app/workflow.py:161-162 | the dictionary built from the stored artifacts is the shelf the proofs speak of, and a settled one lets a later run skip the alignment |
| Workflow.HoldsIsOnce | app/workflow.py:210-318 | among the artifacts of any number of runs no two finish the same piece of work |
| Workflow.ResumedIsAlignedIff | app/workflow.py:210-222 | what a run resumes has been aligned if and only if the last specification stored was assessed after it |
| Workflow.CutOffAlignment | app/workflow.py:413-459 | two alignment rounds, the second cut off, leave a resumable specification that was never aligned |
| Workflow.WorkflowEngine.AlignOnce | app/workflow.py:425-452 | what one round stores and returns for every pair of answers |
| Workflow.WorkflowEngine.CheckCancelled | app/workflow.py:706-708 | raises exactly when the flag is set |
| Workflow.WorkflowEngine.Enter | app/workflow.py:697-704 | a stage is entered, with its progress, only if no cancellation is requested |
| Workflow.ProgressAscends | app/workflow.py:697-704 | a later stage shows more progress, and none shows all of it |
| Workflow.WorkflowEngine.ValidateWithFixes | app/workflow.py:637-688 | at most F + 1 runs with one fix after each failing one; success means the last and only the last exited 0 and left exactly this tree; unless a call fails it gives up only after F + 1 runs |
| Workflow.WorkflowEngine.RunValidationCycle | app/workflow.py:592-635 | success means that in this cycle first the build, then the test, then the run command, each as far as configured, was run until it exited 0, nothing else was run, and the last run left exactly this tree |
| Workflow.WorkflowEngine.ReviewAndJudge | app/workflow.py:507-553 | reviewer and judge are given the same diff, and it is accepted if and only if the judge accepts with the threshold reached, no criterion failed and no instruction left, the review is without findings and approves, and the tree is clean |
| Workflow.WorkflowEngine.JudgeRound | app/workflow.py:476-553 | one round runs every configured command, stores the diff of the validated tree and has exactly that diff reviewed and judged |
| Workflow.WorkflowEngine.AcceptanceLoop | app/workflow.py:461-590 | at most A corrections, bounded calls; an unaccepted result comes only from the last round |
| Workflow.WorkflowEngine.AlignProductRequirement | app/workflow.py:413-459 | returns exactly when specification and assessment have passed, once; unless a call fails or the run is cancelled it gives up only after max_product_iterations rounds, each of two calls |
| Workflow.WorkflowEngine.OpenWorktree | app/workflow.py:163-207 | an existing worktree is resumed untouched; a new one is made only when none is there |
| Workflow.WorkflowEngine.MakePlan | app/workflow.py:227-242 | a stored plan is returned without a call or any change, and a requested cancellation stops the run before any call |
| Workflow.WorkflowEngine.ReadContext | app/workflow.py:244-269 | a stored reading is reused without a call |
| Workflow.WorkflowEngine.MakeDesign | app/workflow.py:271-276 | a stored design is reused without a call; an empty one is asked for again |
| Workflow.WorkflowEngine.WriteCode | app/workflow.py:278-289 | the first code change is made only if no code change is stored; otherwise there is no call and no change |
| Workflow.WorkflowEngine.SyncSource | app/workflow.py:310-334 | for every way a sync may end: the source is patched exactly when a sync is due (accepted, wanted and not recorded) and git takes the diff, and the record is stored unless the run ends before |
| Workflow.SyncedTwice | app/workflow.py:318-320 | from every state without a recorded sync, a run that ends between patch and record leads to a second patch |
| Workflow.WorkflowEngine.AcceptAndDeliver | app/workflow.py:290-411 | what reaches the source has been stored, reviewed, judged and validated by every configured command; an accepted diff that is wanted there reaches it unless git declines or the run ends |
| Workflow.WorkflowEngine.Run | app/workflow.py:156-411 | one run: bounded PRODUCT stages and bounded agent, coder and shell calls, at most two calls after a cancellation request, none at all if it was requested before |
| Workflow.WorkflowEngine.RunGuarded | app/workflow.py:138-411 | over any number of runs: a run ends waiting for approval, cancelled exactly for a raised cancellation, or failed for any other error; stages are a prefix of the language, no stored work is finished twice, the commands are those of the task or else of the plan, the source is patched once for the stored record and once for every run that ended between patch and record, and only with a diff that was stored, validated, reviewed and accepted; a delivered accepted diff is synced if wanted, unless git declines; a worktree is created only for a removed one |
| Mirror.StageNamesRoundTrip | app/gateway.py:18-26 | all ten stages survive encoding and decoding, and the placeholder step is no stage |
| Mirror.RunnerStepsAreStages | app/gateway.py:18-26 | the five other steps a runner may name stand for stages |
| Mirror.UpdateIsMirrored | app/runner.py:198-231 | after the gateway handles what an update emits, both rows agree if and only if the update is faithful; a failure the server retries leaves the row queued |
| Mirror.RunIsMirrored | app/runner.py:88-93 | every sequence of workflow updates keeps both rows equal, up to the retry decision |
| Mirror.AssignedRunIsMirrored | app/runner.py:343-358 | the first update of an assigned run restores the equality that acceptance had broken |
| Mirror.RemoteStorage.UpdateTask | app/runner.py:88-106 | a cached task takes the fields while a sender is set; any other is patched by REST; either way the message for the update is emitted if there is a sender, and a failed request changes nothing |
| Mirror.RemoteStorage.EmitTaskUpdate | app/runner.py:198-231 | which update emits which message |
| Mirror.RemoteStorage.HandleProtocolMessage | app/runner.py:236-242 | a cancellation reaches the cached row and touches nothing else |
| EmailLimits.PassingStaysBounded | app/api.py:218-224 | passing the window check keeps stored challenges and requests on their way within the limit plus overlap, wherever the window is placed |
| EmailLimits.LandingStaysBounded | app/storage.py:557-588 | a creation takes exactly the place its request had |
| EmailLimits.StoredChallengesAreLimited | app/api.py:218-256 | after every run each half-open window holds at most ip_max stored challenges of an address, plus as many as one of its requests met between check and creation |
| EmailLimits.StoredCodesAreSpaced | app/api.py:225-237 | after every run in which no request for an e-mail passes the cooldown check while another is past it, its stored codes are a cooldown apart |
| EmailLimits.SentChallengesAreLimited | app/storage.py:331-333 | both for everything ever sent, if cleanup leaves rows at least as long as a request at work can need them |
| EmailLimits.ChallengesAreUsedOnce | app/storage.py:557-613 | after every run at most one unused challenge per e-mail, one success per challenge, attempts within their limit |
| EmailLimits.ClosedWindowHoldsAtMostTwice | app/api.py:218-224 | over every run a closed window holds at most twice as many as a half-open one may |
| EmailRuns.ClosedWindowMayHoldTwice | app/storage.py:548-555 | for every ip_max and every overlap some run fills a closed window with exactly twice as many: a challenge one window old no longer counts |
| EmailRuns.OverlapIsAttained | app/api.py:218-256 | for every ip_max and every overlap some run puts exactly their sum into one half-open window |
| EmailRuns.OverlapBreaksSpacing | app/api.py:225-237 | two requests at once leave two codes of one e-mail closer together than the cooldown |
| EmailRuns.UndisturbedRequest | app/api.py:209-256 | the steps of a request with nothing in between are the creation of its challenge |
| EmailLimits.GuessBudget | app/storage.py:590-613 | after as many wrong codes in time as attempts were left, no code for that challenge is ever accepted |
| EmailFates.CodeIsAcceptedIff | app/storage.py:590-613 | after every run a verification is accepted if and only if the challenge is alive and it names its e-mail and the code drawn at its creation, in time and with an attempt left; alive means neither used, superseded, withdrawn nor cleaned up |
| EmailFates.RightCodeSucceeds | app/storage.py:590-613 | the code that was drawn is accepted in time, whatever else happened, unless one of these ended the challenge or its attempts are spent |
| EmailFates.ChallengeSucceedsOnce | app/storage.py:590-613 | over every run a challenge is accepted at most once |
| EmailCodes.EmailDesk.CountSince | app/storage.py:548-555 | counts exactly the address's challenges after the cutoff |
| EmailCodes.EmailDesk.LatestAt | app/storage.py:539-546 | the latest creation time for the e-mail, and none only if there is none |
| EmailCodes.EmailDesk.CountRequest | app/api.py:218-224 | the window check passes exactly when the window has room, whatever other requests are doing |
| EmailCodes.EmailDesk.LookRequest | app/api.py:225-237 | the cooldown check passes exactly when the last stored code is a cooldown old |
| EmailCodes.EmailDesk.CreateEmailChallenge | app/storage.py:557-588 | earlier challenges of the e-mail are used up, then the new one is stored |
| EmailCodes.EmailDesk.RequestEmailCode | app/api.py:209-256 | undisturbed, a request is allowed exactly when the window has room and the cooldown is over, and then creates its challenge if the e-mail may sign in |
| EmailCodes.EmailDesk.DeleteEmailChallenge | app/storage.py:615-617 | exactly this challenge goes |
| EmailCodes.EmailDesk.ConsumeEmailChallenge | app/storage.py:590-613 | returns whether it marked the challenge as used; which codes do is said by EmailFates.CodeIsAcceptedIff |
| EmailCodes.EmailDesk.CleanupExpired | app/storage.py:331-333 | removes exactly the challenges that expired before the cutoff |

## Left out

* Text and bytes: SQL, JSON, HTTP, WebSocket framing, SMTP, digests, signatures. Times are integers in the clock's own
  unit, versions are numbers with an order, a code is its own digest, verdicts are in lower case.
* Checks that a message carries the connected runner's identifier (`app/gateway.py:68-76`, `app/gateway.py:186-188`):
  the model has one runner per connection.
* Two live sessions of one runner, and the REST runner endpoints (`app/api.py:979-1056`): they bypass the protocol.
* Retention of `runner_messages` (`app/storage.py:334-336`): it forgets which numbers were seen.
* Retention of artifacts (`app/storage.py:341-350`): it can make a later run repeat work.
* In the reconnect machine one call of the gateway's handler and one dispatch pass are single steps; what another
  process does to the tables meanwhile comes before or after. `QueuedTasks` interleaves their storage calls.
* An agent's answer whose storing fails is taken as a failed answer, and a process that dies during a run as a failure
  of the run at that point; what becomes of the task's status then is part of `QueuedTasks`.
* A state file that is JSON but no object, or that cannot be written: the source stops with an exception.
* On a Local Runner the artifacts sit in a cache in the process's memory (`app/runner.py:55`, `app/runner.py:141-182`):
  the theorems about resumed runs are about one store that survives, as on the server.
* Two runs of one task at the same time, by a worker that has lost its lease and by its successor: `QueuedTasks` lets
  the late one write and settle, but the theorems about workflow runs take them one after the other.
* A request for a task that does not exist violates a foreign key: in the model its handler may also succeed.
* Events, metrics, alerts, branches, error texts, release information, and the `source_head` and `base_branch`
  artifacts; whether git accepts a patch or a worktree is an oracle.
* User accounts and whether an e-mail may sign in (`app/api.py:311-320`): a flag of the request.
* Thread and runner names are assumed to differ between threads and runners; a restarted process has new thread names.
* ReconnectAnswers.HandledIsAnswered: leaves out runs in which the process dies inside the handler, which may have
  recorded the message before it answered; the replay of such a message is answered by the same handler.
* EmailLimits.SentChallengesAreLimited: asks that cleanup waits long enough, given a bound on how long a request takes;
  the default settings do for any request shorter than an hour.
* Role checks, the texts and the lists of permission requests, both user interfaces, the updater and the Git platform
  client: they would only add easy members.
