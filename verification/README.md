# LogServe control plane: a verified model

LogServe is a log-first control plane. Every mutation is appended to a stream, metadata is updated
afterwards, and a restart rebuilds the state by folding the streams. This project models that core in
Dafny 4.11 and proves what live state, log, replay, checkpoints, scheduler and indexes owe each other.
`dafny verify dfyconfig.toml` checks everything.

## How it is organised

| files | what they model |
|---|---|
| `ActorLog`, `ActorSnapshot`, `ActorReplay`, `ActorCheckpoint`, `ActorService`, `ActorWitnesses` | actor event log, its three replays, checkpoints and trimming, the live mailbox machine with its restarts as a class, and inputs on which promises fail |
| `TaskLog`, `TaskReplay`, `TaskCheckpoint`, `TaskBootstrap`, `TaskKeys`, `TaskProtocol`, `TaskRestarts`, `TaskRuns`, `TaskLive`, `TaskWitnesses` | task lifecycle records, both replays, checkpoint tails, the lease protocol over whole runs with checkpoints and both kinds of restart, and runs on which promises fail |
| `TaskDeque`, `SchedulerState`, `SchedulerOrder`, `Scheduler` | the deque, what the indexed scheduler computes, whom that serves and in which order, and the scheduler class that computes it |
| `ControlState`, `Control` | submit, poll, start, complete, redelivery, checkpoint and restart handlers over metadata, logs and scheduler |
| `PlacementIndex`, `PlacementScores`, `Placement`, `PlacementScan`, `PlacementLaws` | sorted placement indexes, their incremental upkeep, the unindexed scans they replace, and what either choice amounts to |
| `LockTable`, `Notify` | the per-actor lock table and the long-poll wake-up as step machines |
| `Basics` | options, results, JSON payloads, Go's string order |

Code that updates state in place is a class with methods proved against a specification function
(`View() == Scan(old(View()), ...)`); the promises are then proved about that function. Inputs the
model cannot see are arbitrary: every clock reading, every append outcome, the readiness of a task,
the ranking of model queues. So the handler theorems hold for clocks that run backwards and for
appends that fail at any point. What a handler read and was told decides its answer: it is an argument
(`Look`, one round of polling) or handed out as a ghost result (`Pass`, one redelivery pass), and the
contracts say in terms of it, of the request and of the row which reply comes and what it changes.

## Hypotheses

* Handlers are atomic: no other handler runs between two steps of one handler. One completion (apply
  plus snapshot) is one step. The lock table and the wake-up channel are modelled without this hypothesis.
* The redelivery timeout is positive, clock readings are positive, and `LeaseTask` succeeds on a queued task.
* A task that is submitted gets an ID no stream has yet; stream listings name each stream once.
* Appends to task and actor streams go through the log store's idempotency keys for start and terminal
  records and for command records. Redelivery records are keyed by their time and taken as new.
* A restart loads the newest metadata checkpoint, and replays in full when there is none or it does not
  load; one that fails part way leaves some rows restored and the others replayed in full. A checkpoint that
  failed to load at one start is not loaded at a later one. `ActorCell.Restart` is a start without a checkpoint;
  what a checkpoint restores of an actor is stated by `ActorCheckpoint.RestoreItemConsistent`, and of its calls by `NumberLost`.
* A poll pass takes a task that was on offer to the poller ever since it captured its signal, and whatever
  puts a task on offer notifies afterwards. Work that comes on offer by the passing of time alone - an expired
  lease, the end of a locality wait - has no notifier and is not among these offers.
* Actor logs are well ordered (`ActorLog.WellOrdered`): `Snapshot(n)` follows command `n` and every snapshot
  reference loads the state held there; numbers rise, with gaps only where a repeated call took one. `ActorService`
  proves it of every log the live machine writes, until a snapshot is taken of a row that ran ahead of its log;
  from then on replay reads the log as one it proves well ordered (`SnapshotKept`, `ReadableReplay`).

## Where the code differs from what one would expect

The model follows the code; each point below is an exact condition with a concrete input on which it fails.

1. Trimming an actor stream at its latest snapshot loses the submission counter exactly when a trimmed
   record mentions a command above the snapshot count and above everything left (`TrimmedReplay`,
   `TrimWhilePending`; `PendingTrim`). The creation identity is lost too.
2. A stream trimmed past a metadata checkpoint restarts with a stale command count unless a later command
   re-establishes it: a tail applies the snapshot record without its count (`TrimmedPastCheckpoint`; `TrimLosesTheCount`).
3. The reported full-replay counter is the command count exactly when, on a trimmed log, that was trimmed at
   its latest snapshot, and on a whole one when no number was ever skipped (`ReplayCounters`; `OlderTrim`).
4. A submission refused after its append leaves log and row one apart until the next submission
   (`ReplayMatchesLive`; `RefusedSubmission`).
5. A completion survives a restart exactly when what that restart replays backs its lease, and no terminal
   record of the same kind, worker and epoch was logged before (`SettleSurvives`, `CompleteSound`). Full replay
   backs a lease that was logged as started and that no redelivery of it or of a later one gave up
   (`CompletionDurable`). A lease that completes without `StartTask` (`UnstartedIsLost`), a redelivery pass that
   fails halfway (`HalfPassIsLost`) and an epoch reused after a restart, whose second completion the log drops
   as a duplicate (`ReusedEpochIsLost`), break this. A restart from a metadata checkpoint reads the tail only, and
   backs a lease the checkpointed row was running, too (`CompletionBacked`), so it keeps completions of the first
   two kinds (`CheckpointKeepsIt`, `CheckpointAfterHalfPass`); `RestartsAgree` says when the two restarts settle
   alike. They differ in one direction only: in every run, what full replay settles the other restart settles
   (`CheckpointsLoseNothing`).
6. A success reported with an error message keeps it only in live metadata; the completion record has no
   place for it (`RestartReturns`; `ErrorIsForgotten`).
7. A checkpoint taken while a lease is not yet started restores a lease epoch above the one in the log
   (`CheckpointAnywhere`; `CheckpointRunsAhead`), and it alone keeps the mailbox number of an actor task: full
   replay gives the same row only if the task had none (`NumberLost`).
8. The two task replays agree after every prefix of a log exactly when every submission in it meets a replay
   with its lease epoch and no fence (`AgreeExactly`; `ResubmissionSplitsReplays`). The control plane keys
   submissions by task, so it never writes a second one itself.
9. A model name with a colon does not survive its string key: string and key lookups differ exactly for
   caches that hold such a model (`KeyRoundTrip`, `LookupsAgree`), its cached workers count as cold for the
   index, and that can change the choice (`PredictedAgree`; `ColonChangesTheChoice`).
10. The indexed locality choice takes any cached worker with capacity first; the unindexed scan may take a
    cold worker with more free slots even before the locality wait is over (`LocalityAgreeVisible`; `LocalityDiffers`).
11. A start by full replay hands actor calls back without their numbers; one from a checkpoint that knows them
    does not. A call that had logged its command already logs none when it runs again, and the row runs one
    ahead of the log (`CompleteActorCall`; `RerunRunsAhead`). The next command that is logged takes its number
    from the row: a number is skipped, and row and log are at one count again. A restart takes the row back to
    the log instead (`Restart`). A snapshot taken in between separates full from assisted replay, exactly then
    (`SnapshotSeparates`), and the row agrees with the latter. The numbers left over at the first restart of an
    untrimmed log are the waiting calls plus the refused submissions, so one refusal leaves a number nobody fills.

## Model

| member | source | states |
|---|---|---|
| Basics.BeforeMeans | internal/control/scheduler_placement.go:202-206 | the string order behind every tie: a proper prefix comes first, otherwise the first difference decides |
| ActorLog.CommandNumbering | internal/control/actor.go:348-464 | in every well-ordered log a command carries a number above those of all commands before it, under the current owner's epoch, and the i-th carries number i iff none was skipped up to it |
| ActorLog.CommandsBetween | internal/control/actor.go:348-464 | over any stretch of a well-ordered log the count moves by at least the commands in it, and by exactly those iff no number was skipped |
| ActorLog.CommandsRise | internal/control/actor.go:306-345 | command epochs never fall along a log |
| ActorLog.FullInvariant | internal/actor/model.go:185-360 | what full replay of a well-ordered log always satisfies: owner and epoch set together, snapshot count at most command count at most submissions |
| ActorSnapshot.AssistedEqualsFull | internal/actor/model.go:185-360 | snapshot-assisted replay - latest snapshot first, old commands skipped, older records re-applied - equals full replay on every field |
| ActorSnapshot.TrimmedReplay | internal/control/actor.go:497-509 | dropping everything before a snapshot record keeps owner, epoch, command count, snapshot and state, and keeps the submission counter iff no dropped record mentions a command above what is left |
| ActorSnapshot.TrimWhilePending | internal/control/actor.go:467-515 | right after the trim replay is consistent iff no submitted command is pending |
| ActorSnapshot.SnapshotSeparates | internal/control/actor.go:467-515 | after one more snapshot record assisted and full replay are equal iff the snapshot has full replay's count and state |
| ActorSnapshot.EarlierReplay | internal/actor/model.go:185-360 | records in front of a snapshot that overrides them change assisted replay in creation identity and submission counter only |
| ActorReplay.HydratePass | internal/actor/model.go:193-231 | the first pass finds the latest readable snapshot, or the first error in log order |
| ActorReplay.ReplayEach | internal/actor/model.go:185-360 | the two-pass loop computes full or assisted replay, with its counters and its errors |
| ActorReplay.ReplayFromState | internal/actor/model.go:377-500 | the tail loop computes replay on top of a given state |
| ActorReplay.ReplayRawEach | internal/actor/model.go:160-181 | combines both replays and repairs the full counter as the code does |
| ActorReplay.NoReplayErrors | internal/actor/model.go:185-360 | no well-ordered log, trimmed or not, makes a replay fail |
| ActorReplay.ReplayCounters | internal/actor/model.go:160-181 | the snapshot counter is the distance to the latest snapshot iff no number was skipped since; the full counter is the command count iff none was ever skipped or, on a trimmed log, iff it was trimmed at its latest snapshot |
| ActorCheckpoint.OverlapAbsorbed | internal/actor/model.go:377-500 | for cuts k <= cut, the state after `cut` with the records after `k` on top equals full replay on every field |
| ActorCheckpoint.TailRespectsConsistent | internal/actor/model.go:609-620 | consistent seeds stay consistent under the same tail |
| ActorCheckpoint.CheckpointRestart | internal/control/checkpoint.go:388-425 | a checkpoint copied at or after its recorded position restarts to a state consistent with full replay |
| ActorCheckpoint.TrimmedPastCheckpoint | internal/control/checkpoint.go:388-425 | with the log trimmed past the checkpointed row, the restart is consistent iff no command was trimmed unseen or a later one follows, and no trimmed submission is above what row and tail mention |
| ActorCheckpoint.TrimLosesTheCount | internal/control/actor.go:497-509 | a smallest log on which that restart forgets the command count |
| ActorCheckpoint.BootstrapCheckpointActors | internal/control/checkpoint.go:390-425 | every item is its seed plus the readable tail of its stream, trimmed or not, every unknown stream is fully replayed or skipped, and the first failing tail fails the restart |
| ActorCheckpoint.RestoreItemConsistent | internal/control/checkpoint.go:154-224 | what an item restores from a stream trimmed anywhere agrees with full replay of everything ever logged iff the trim is not past the row or lost nothing it needs; from an untrimmed stream it agrees with replay of that stream |
| ActorService.ActorCell.CreateActor | internal/control/actor.go:24-90 | which of the two required fields is missing decides the refusal; otherwise, log first, a row with exactly the given fields, the default snapshot interval and zero counters, unless the append fails |
| ActorService.ActorCell.EnsureActorOwner | internal/control/actor.go:306-345 | a fresh owner is kept; otherwise the lowest active worker gets the next epoch, log first; it is refused for want of a worker iff there is none, else only by a failed append |
| ActorService.ActorCell.LowestWorker | internal/control/actor.go:306-345 | the least worker ID in string order |
| ActorService.ActorCell.SubmitActorCommand | internal/control/actor.go:158-252 | an accepted call gets the number after everything submitted or applied, logged first; a refused one leaves mailbox and counters unchanged; nothing logged is lost |
| ActorService.ActorCell.AppendSubmission | internal/control/actor.go:196-251 | exactly one submission record; refused after it, the row falls behind the log |
| ActorService.WaitingCalls | internal/control/actor.go:158-252 | before any restart the calls waiting for their turn are exactly as many as the numbers left |
| ActorService.ActorCell.CompleteActorCall | internal/control/actor.go:348-428 | stale iff owner or epoch differ; out of order iff they match and the call has a number that is not the next; every other report advances the row by exactly one command with the reported state, or the append failed and nothing changed; with a store a snapshot follows a success iff the new count is a multiple of the interval; one new record, none for a call that - after a restart - repeats one; the cell stays sound |
| ActorService.ActorCell.ApplyActorCommand | internal/control/actor.go:377-412 | a success appends exactly one applied record and installs count and normalised state, or the append failed and nothing changed; repeated after a restart it moves the row alone |
| ActorService.ActorCell.FailActorCommand | internal/control/actor.go:431-464 | a failed command advances the count and keeps the state; by one record, after which row and log are at one count, or - repeated after a restart - by none |
| ActorService.ActorCell.CreateActorSnapshot | internal/control/actor.go:467-515 | without a store nothing happens; otherwise the state is stored, the snapshot record of exactly this row appended and metadata pointed at it, or the step that failed is named and nothing after it happened; a trim leaves that record alone; afterwards the row is not ahead of what replay gives |
| ActorService.SnapshotKept | internal/control/actor.go:467-515 | a snapshot keeps row and log sound, also of a row that ran ahead of its log |
| ActorService.KeptCommand | internal/logstore/store.go:285-292 | the next command of a sound actor keeps it sound whether the log takes its record or drops it as a repetition |
| ActorService.ActorCell.Restart | internal/control/bootstrap.go:444-461 | a start by full replay keeps owner, epoch, snapshot and - but for what the row ran ahead - count and state, derives the submission counter from what is readable, and hands waiting calls back without numbers; at the first restart of an untrimmed log the numbers left are those calls plus the refused submissions |
| ActorService.ActorCell.ReplayMatchesLive | internal/control/actor.go:265-279 | in every reachable state, repeated calls and restarts included, replay succeeds and matches the live row but for what that ran ahead; it is consistent iff the row did not and the submission counter is derivable, on an untrimmed log iff the row is no submission behind |
| ActorService.ReadableReplay | internal/actor/model.go:160-181 | what replay makes of the readable records of any reachable actor, older ones in front of an overriding snapshot included |
| ActorService.ActorCell.ReplayActor | internal/control/actor.go:265-279 | the consistency verdict reported to callers means exactly that, and is never given to a row ahead of its log |
| ActorWitnesses.PendingTrim | internal/control/actor.go:497-509 | a log on which trimming with a pending submission makes replay inconsistent |
| ActorWitnesses.OlderTrim | internal/actor/model.go:160-181 | a log trimmed at an older snapshot whose reported full counter is wrong |
| ActorWitnesses.RerunRunsAhead | internal/control/actor.go:431-464 | a call that fails, comes back after a restart and fails again: two commands in the row, one in the log; the next record has number three, and both count three |
| ActorWitnesses.RefusedSubmission | internal/control/actor.go:225-251 | a refused submission after which replay and row disagree |
| TaskLog.FoldInvariant | internal/control/task_replay.go:74-167 | on every log whatever, RUNNING implies a lease epoch above the redelivery fence or both zero, and the row mirrors the replayed status |
| TaskLog.FoldMonotone | internal/control/task_replay.go:74-167 | between submissions lease epoch and fence never fall and a terminal state absorbs every record |
| TaskLog.ReplaysAgree | internal/control/bootstrap.go:110-198 | on every log with one zero-epoch submission at its head both replays give the same specification, status and lease epoch |
| TaskLog.AgreeExactly | internal/control/bootstrap.go:110-198 | on every log whatever both replays agree after every prefix iff every named submission meets a replay with its lease epoch and no fence |
| TaskLog.ResubmissionSplitsReplays | internal/control/bootstrap.go:110-198 | a log on which they differ: a lease before a second submission |
| TaskReplay.TaskReplayState.FromCheckpoint | internal/control/task_replay.go:54-65 | a checkpointed row seeds replay without its fence |
| TaskReplay.TaskReplayState.ApplyRaw | internal/control/task_replay.go:74-167 | the record-by-record update is the replay step; only an undecodable submission fails |
| TaskReplay.TaskReplayState.Finish | internal/control/task_replay.go:174-189 | work in flight goes back to the queue, the specification gets the replayed lease epoch |
| TaskReplay.ReplayRecords | internal/control/task_replay.go:34-51 | the loop folds the log into the seeded state |
| TaskReplay.ReplayTaskSpec | internal/control/bootstrap.go:110-183 | the second replay loop computes specification, status and lease epoch |
| TaskCheckpoint.LaterStart | internal/control/task_replay.go:98-124 | on a shaped log a later lease is above everything named before it, and a queue without a new lease stays a queue |
| TaskCheckpoint.OverlapAt | internal/control/checkpoint.go:92-99 | while known records are re-applied, replay holds the seed's status or full replay's, never another |
| TaskCheckpoint.LaggingAt | internal/control/task_replay.go:54-65 | a lagging redelivery fence changes no later decision |
| TaskCheckpoint.OverlapAbsorbed | internal/control/checkpoint.go:278-302 | for every shaped log and cuts 1 <= k <= cut, seeding after `cut` without the fence and applying the records after `k` gives the row and specification of the whole log |
| TaskBootstrap.BootstrapCheckpointTasks | internal/control/checkpoint.go:278-322 | every checkpointed task is its seed plus tail, every other stream is fully replayed, queued rows are scheduled, and an undecodable record fails the restart |
| TaskBootstrap.RestoredAnywhere | internal/control/checkpoint.go:276-322 | what that restores for a checkpoint taken anywhere in an undisturbed run is the replayed row with the higher lease epoch, and the mailbox number where replay has none |
| TaskBootstrap.RestartIsBootstrap | internal/control/bootstrap.go:43-94 | on every run the two restart steps of `TaskRuns` are this procedure for the newest checkpoint, and full replay |
| TaskBootstrap.NumberLost | internal/control/checkpoint.go:726-745 | a checkpointed actor task keeps its mailbox number through its tail, full replay loses it: they agree iff it had none |
| TaskProtocol.Memory | internal/control/task_replay.go:98-145 | what an open replay remembers of the row it started from and the records it read: its fence is the highest redelivery, a lease above the row's is a logged start, and it runs iff its lease is above the fence and started or running in the row |
| TaskProtocol.CompletionBacked | internal/control/checkpoint.go:276-302 | on top of any open row a terminal record of the newest lease counts iff the tail never gave that lease up and started it, or the row was running it |
| TaskProtocol.CompletionDurable | internal/control/bootstrap.go:185-198 | a terminal record of the newest lease counts in replay iff that lease was logged as started and not given up in the log; then it decides status, worker, result and error |
| TaskProtocol.RestartsAgree | internal/control/bootstrap.go:43-94 | a checkpoint restart and full replay settle alike after a completion iff the tail gave the lease up, or what was logged before the tail amounts to what the row says |
| TaskKeys.FirstKeyedAt | internal/logstore/store.go:285-292 | where the first record under a key stands in a stream |
| TaskProtocol.NeverTook | internal/logstore/store.go:285-292 | a terminal record already in the log of a task its restart leaves open came before the tail or while its lease was not backed |
| TaskProtocol.LeaseSound | internal/metadata/memory_v2.go:366-390 | leasing a queued row keeps row and log sound |
| TaskProtocol.RecordSound | internal/control/hardening.go:345-359 | start and redelivery records of the current lease keep them sound, also when the pass then fails |
| TaskProtocol.CompleteSound | internal/control/service.go:763-827 | settling a row after its keyed terminal append keeps row and log sound, and the next restart settles iff the lease is backed and the key is new |
| TaskProtocol.RestartSound | internal/control/bootstrap.go:73-94 | a restart keeps them sound, from whatever row it starts |
| TaskProtocol.RestartReturns | internal/control/task_replay.go:174-189 | a restart gives back the settled row iff it starts from it, or the first record under its key is in the tail and came while its lease was backed (equal iff a success had no error message and the mailbox number is the base's), else the task queued again |
| TaskProtocol.CheckpointSound | internal/control/checkpoint.go:92-99 | copying the live row for a checkpoint, any time after its position was read, makes a sound base for the next restart |
| TaskRestarts.CompleteCovers | internal/control/service.go:763-827 | a completion that counts in full replay counts in a restart from the checkpoint |
| TaskRestarts.CheckpointCovers | internal/control/checkpoint.go:92-99 | taking a checkpoint keeps that so |
| TaskRestarts.FallbackCovers | internal/control/bootstrap.go:43-55 | a checkpoint that does not load leaves a row sound for full replay |
| TaskRestarts.CheckpointKeepsMore | internal/control/bootstrap.go:43-94 | where full replay settles a row both restarts give the live row back, but for an error kept with a success and the mailbox number |
| TaskRuns.RunSound | internal/control/bootstrap.go:43-94 | every run of leases, starts, redeliveries, half-failed passes, completions, checkpoints with anything between their two halves, restarts from the newest one and fallbacks to full replay, with repeated keys dropped, keeps row and log sound for both restarts |
| TaskRuns.CheckpointsLoseNothing | internal/control/checkpoint.go:154-224 | in every run, a row that full replay settles the restart that takes place settles with the same outcome |
| TaskRuns.CalmReplay | internal/control/task_replay.go:72-189 | without restarts and half-failed passes, and with starts - repeated or not - before completions, folding the log gives the settled row exactly but for an error message and the mailbox number, and queues every other task |
| TaskRuns.StartAgain | internal/control/service.go:739-759 | a repeated start of one lease changes nothing |
| TaskLive.CheckpointAnywhere | internal/control/checkpoint.go:92-99 | a checkpoint of the live row anywhere in such a run, even inside a lease never started, restores with its tail the row of the whole log, up to the higher lease epoch and the mailbox number |
| TaskWitnesses.UnstartedIsLost | internal/control/service.go:739-827 | a run whose completion without a start does not survive a restart |
| TaskWitnesses.HalfPassIsLost | internal/control/hardening.go:306-321 | a run whose completion after a half-failed redelivery pass does not survive |
| TaskWitnesses.ReusedEpochIsLost | internal/control/service.go:911-915 | a run that reuses an epoch after a restart: durable lease, settled row, queued replay |
| TaskWitnesses.ErrorIsForgotten | internal/control/task_replay.go:146-155 | a success whose error message replay does not have |
| TaskWitnesses.CheckpointRunsAhead | internal/control/checkpoint.go:92-99 | a checkpoint between lease and start with a lease epoch replay does not have |
| TaskWitnesses.CheckpointKeepsIt | internal/control/bootstrap.go:43-55 | a run whose unstarted completion a restart from the checkpoint keeps and full replay loses |
| TaskWitnesses.CheckpointAfterHalfPass | internal/control/checkpoint.go:92-99 | the same for a checkpoint copied after a half-failed redelivery pass |
| TaskDeques.TaskDeque.Footprint | internal/control/scheduler.go:581-597 | the backing slice never exceeds max(Len + 64, 2 * Len) |
| TaskDeques.TaskDeque.PushBack | internal/control/scheduler.go:560-562 | appends to the plain sequence |
| TaskDeques.TaskDeque.PushFront | internal/control/scheduler.go:565-572 | prepends to the plain sequence, reusing head room |
| TaskDeques.TaskDeque.PopFront | internal/control/scheduler.go:583-597 | removes the head of the plain sequence through clearing and compaction |
| SchedulerState.ScanServesFirst | internal/control/scheduler.go:346-377 | the first entry of a queue that is neither stale nor dropped decides: it is handed out or blocks its queue; other queues are untouched |
| SchedulerState.AssignConserves | internal/control/scheduler.go:204-244 | assignment keeps every queued task reachable; a task leaves only by being returned or dropped, and the returned one was queued and approved |
| SchedulerState.AssignRoutes | internal/control/scheduler.go:204-244 | a worker is only handed its own targeted tasks, the next command of an actor it owns, a model it is a candidate for, or general work |
| SchedulerState.ExpiryConserves | internal/control/scheduler.go:277-300 | expiry keeps queues and the remaining leases |
| SchedulerState.LeastExists | internal/control/scheduler.go:655-687 | the heap order has a least element on every non-empty multiset |
| SchedulerState.LessTransitive | internal/control/scheduler.go:661-669 | deadline, task ID and epoch order leases transitively |
| SchedulerState.StepConserves | internal/control/scheduler.go:141-300 | every operation keeps each queued task in a line of its kind and each tracked lease in the heap |
| SchedulerState.QueuedMoves | internal/control/scheduler.go:141-377 | tasks enter `queued` only by Enqueue or ReturnFront and leave only by assignment, drop, Forget or CompleteRunning |
| SchedulerState.TraceConserves | internal/control/scheduler.go:141-400 | so in every run of the scheduler from empty |
| SchedulerState.HandedOutOnce | internal/control/scheduler.go:204-244 | in every run a task is not handed out twice without an Enqueue or ReturnFront in between |
| SchedulerState.OwnQueue | internal/control/scheduler.go:491-518 | with fixed routing keys a queued task is in the queue its metadata names |
| SchedulerState.StepRoutes | internal/control/scheduler.go:141-400 | every operation keeps entries in their own lines |
| SchedulerState.TraceRoutes | internal/control/scheduler.go:141-400 | in every run with fixed routing keys each queued task waits in its own queue and each hand-out is addressed to its worker |
| SchedulerOrder.ScanOffers | internal/control/scheduler.go:346-377 | one queue answers with the first live entry at its turn that its check assigns, if nothing live but dropped entries stands before it, and with nothing iff it offers nothing |
| SchedulerOrder.AssignAnswers | internal/control/scheduler.go:204-244 | the answer is what the first queue in the source's order - own target queue, mailboxes of the owned actors, ranked models, general - has on offer; None iff none of them offers anything, before the call and after it |
| SchedulerOrder.TraceAnswers | internal/control/scheduler.go:204-244 | so at every assignment of every run from empty with fixed routing keys |
| SchedulerOrder.AssignTrims | internal/control/scheduler.go:346-377 | assignment takes entries off the fronts of queues only, and only those whose task no longer waits there |
| SchedulerOrder.FirstComeFirstServed | internal/control/scheduler.go:143-244 | in every run with fixed routing keys a task behind a waiting one of its queue is not handed out before it unless put back to the front |
| SchedulerOrder.EnqueuedBehind | internal/control/scheduler.go:143-160 | a task enqueued later stands behind every waiting one of its queue |
| SchedulerOrder.EnqueuedAlone | internal/control/scheduler.go:143-160 | it is on offer as soon as nothing in its queue still waits |
| SchedulerOrder.ReturnedFirst | internal/control/scheduler.go:164-178 | a task put back to the front is what its queue offers next |
| SchedulerOrder.PushedOnce | internal/control/scheduler.go:143-178 | a waiting task keeps its place under new metadata; any other gets one entry in its own queue and in no other, at the end asked for |
| SchedulerOrder.PrunedFront | internal/control/scheduler.go:455-467 | pruning drops exactly the stale entries in front |
| SchedulerOrder.EmptyQueueGoes | internal/control/scheduler.go:379-400 | an empty queue goes with the last task routed to it, the general one stays |
| Scheduling.Scheduler.Enqueue | internal/control/scheduler.go:143-160 | the new state: pushed at the back of its queue once, metadata refreshed |
| Scheduling.Scheduler.ReturnFront | internal/control/scheduler.go:164-178 | the same at the front |
| Scheduling.Scheduler.Forget | internal/control/scheduler.go:181-190 | metadata, queued mark and lease are gone, stale entries stay |
| Scheduling.Scheduler.CompleteRunning | internal/control/scheduler.go:264-273 | the same on completion |
| Scheduling.Scheduler.TrackRunning | internal/control/scheduler.go:248-261 | the lease replaces the tracked one, its deadline joins the heap; unusable leases change nothing |
| Scheduling.Scheduler.NextFromQueue | internal/control/scheduler.go:346-377 | the loop over queue objects computes the scan |
| Scheduling.Scheduler.MaybeCleanupQueue | internal/control/scheduler.go:379-400 | an empty queue leaves its map only under its own key |
| Scheduling.Scheduler.PruneFront | internal/control/scheduler.go:455-467 | drops stale heads and nothing else |
| Scheduling.Scheduler.Assign | internal/control/scheduler.go:204-244 | computes `Assigned`: target queue, actor mailboxes at their turn, pruning, ranked models, general queue; whom that serves is stated by AssignAnswers |
| Scheduling.Scheduler.PopExpiredRunning | internal/control/scheduler.go:277-300 | exactly the current leases with deadline at most `now`, once each and in deadline order; all later ones stay tracked, superseded and completed ones are not returned |
| ControlState.HandoutAgrees | internal/control/service.go:646-670 | while scheduler and metadata agree, polling drops no queued task and hands out only queued, ready ones |
| ControlState.StepLease | internal/control/service.go:670-690 | handing out, leasing and tracking keeps the agreement |
| ControlState.PollAnswers | internal/control/service.go:646-670 | a round of polling answers with the first ready task at its turn that stands first in its queue, in the source's order of queues; None iff there is none, before it and after it |
| ControlState.LeftWaiting | internal/control/service.go:646-670 | a queued, ready task at its turn, in a queue the worker serves, is left waiting by a round with nothing to hand out only behind a queued task of its queue that is not ready or not at its turn |
| ControlState.StepTrack | internal/control/hardening.go:295-299 | tracking a popped lease again restores its part of the agreement |
| ControlState.StepLogRedelivery | internal/control/hardening.go:306-321 | logging a redelivery keeps the agreement and the ledger |
| ControlState.StepRequeue | internal/control/hardening.go:323-337 | requeueing a popped lease moves it from running to queued on both sides |
| ControlState.ExpiredAreDue | internal/control/hardening.go:276-285 | the leases a pass pops are exactly the running ones whose last update plus the timeout is at or below the clock reading |
| ControlState.PassTogether | internal/control/hardening.go:276-342 | what the three loops do to each row, decided by the readings and the refused append |
| ControlState.DueIsRequeued | internal/control/hardening.go:302-337 | a running row whose update plus the timeout is at or below every reading is queued afterwards, scheduled and fenced in the log, unless an append was refused |
| ControlState.NotDueIsKept | internal/control/hardening.go:296-302 | one above the first or the second reading keeps row and log and is tracked under its deadline and epoch |
| ControlState.StepSettle | internal/control/service.go:799-806 | settling a task frees its lease on both sides |
| ControlState.SettleSurvives | internal/control/service.go:763-827 | before a completion: it will survive a restart - from the checkpoint or in full - iff what that replays backs its lease and its key is new to the log |
| ControlState.SettleSurvivesReplay | internal/control/bootstrap.go:43-94 | for full replay that is a durable lease, and such a lease the checkpoint backs too |
| ControlState.RestartKeepsMore | internal/control/bootstrap.go:43-94 | of every task: a row full replay would settle comes back settled from the checkpoint |
| ControlState.StepMark | internal/control/checkpoint.go:632-662 | reading the stream positions keeps the agreement |
| ControlState.StepCopy | internal/control/checkpoint.go:562-577 | copying the rows keeps it: each is a sound base for its task's next restart |
| ControlState.StepAdd | internal/control/service.go:972-1017 | a new row joins ledger, key index and queue together |
| ControlState.WhereATaskIs | internal/control/hardening.go:276-342 | between handlers a QUEUED task waits in the queue its request names, known to the scheduler by the fields of its request and row; a RUNNING one is tracked only, with its current epoch and deadline; a terminal one is in neither; and row and log are sound |
| ControlState.RestartSurvivors | internal/control/bootstrap.go:73-94 | what a restart keeps of every row: the settled ones that its base is or the tail carries, as logged; every other task queued |
| ControlPlane.Control.SubmitTask | internal/control/service.go:925-1018 | a known key returns its task iff that has no fingerprint or the same, else conflicts; a new one meets backpressure iff the log is slow or the queue at its high watermark; a refused append changes nothing; otherwise the row is queued without a lease under the request's fields and mailbox number, logged, keyed, and waits last in the queue those fields name |
| ControlPlane.Control.Triage | internal/control/hardening.go:285-302 | first loop: a popped lease is kept iff its row's last update plus the timeout is at or below this reading, the others are tracked again |
| ControlPlane.Control.LogRedeliveries | internal/control/hardening.go:306-321 | second loop: one redelivery record per lease in order; after a refused append exactly those before it are logged and every lease is tracked again |
| ControlPlane.Control.RequeueAll | internal/control/hardening.go:323-342 | third loop: a lease still due by this reading is requeued as of it, the others are tracked again |
| ControlPlane.Control.Resync | internal/control/hardening.go:363-375 | queue, track or forget by status |
| ControlPlane.Control.RedeliverExpired | internal/control/hardening.go:276-342 | for every row: looked at iff running and due by the first reading, logged iff due by the second, requeued iff due by the third, untouched otherwise; fails iff an append was refused, and then requeues nothing; whatever fails, the agreement holds and a requeued lease is fenced in the log |
| ControlPlane.Control.LeaseNext | internal/control/service.go:646-690 | one round leases the task `PollAnswers` names, one epoch further, to this worker and as of this reading, and takes it off the front of its queue; None iff nothing is on offer, and no row changes |
| ControlPlane.Control.LeaseBatch | internal/control/service.go:640-692 | round by round as LeaseNext, distinct tasks; it ends at the limit, or with nothing left on offer |
| ControlPlane.Control.PollTask | internal/control/service.go:551-595 | refused iff the worker is unnamed or the redelivery pass was refused an append; otherwise a pass, then a batch of at least one and at most 64 tasks, as many as requested unless nothing more is on offer |
| ControlPlane.Control.StartTask | internal/control/service.go:739-759 | unknown iff there is no row; acknowledged unchanged if settled; stale iff open and not held by this worker under this positive epoch; otherwise exactly the start of this lease is logged, or the append was refused |
| ControlPlane.Control.CompleteTask | internal/control/service.go:763-827 | the same replies; a held lease settles the row with exactly the reported outcome, log first, unless its actor - if it has one - or the append refuses; every refusal changes nothing |
| ControlPlane.Control.Settle | internal/control/service.go:799-827 | the terminal record of this lease under its key, the settled row, and nothing else |
| ControlPlane.Control.Restart | internal/control/bootstrap.go:25-94 | a new process keeps exactly the settled rows that checkpoint or log carry and queues all other tasks, in step with a new scheduler, whichever tasks the checkpoint restored before full replay took over |
| ControlPlane.Control.ReplayOne | internal/control/checkpoint.go:278-302 | one task: the checkpointed row with its tail, or its whole stream |
| ControlPlane.Control.ReadPositions | internal/control/checkpoint.go:85-99 | first half of a checkpoint: the length of every stream |
| ControlPlane.Control.CopyRows | internal/control/checkpoint.go:96-99 | second half, after any handlers: every row as it is, from the position read for it, and at least from the first record |
| PlacementIndex.SortOrdered | internal/control/scheduler_placement.go:183-209 | sorting by score and worker ID gives a strict order |
| PlacementIndex.UpsertLists | internal/control/scheduler_placement.go:183-209 | upsert keeps entries sorted, duplicate-free and `byID` their inverse, and sets exactly this worker's score or, at the sentinel, removes it |
| PlacementIndex.RemoveLists | internal/control/scheduler_placement.go:212-226 | remove takes out exactly this worker |
| PlacementScores.KeyRoundTrip | internal/control/hardening.go:394-401 | splitting a model's string key gives the model back iff its name has no colon |
| PlacementScores.UpsertIndexed | internal/control/scheduler_placement.go:147-179 | upserting one worker brings all three indexes of a model up to date with its new view and statistics |
| PlacementScores.RemoveIndexed | internal/control/scheduler_placement.go:129-137 | removing a worker leaves the indexes of the other workers |
| PlacementScores.CachedColdPartition | internal/control/scheduler_placement.go:159-178 | cached and cold partition the workers with capacity |
| PlacementScores.FirstIsBest | internal/control/scheduler_placement.go:398-406 | the first entry has the best score, ties by worker ID |
| Placement.PlacementStore.Ensure | internal/control/scheduler_placement.go:55-65 | a model indexed for the first time is indexed from every view |
| Placement.PlacementStore.UpsertWorker | internal/control/scheduler.go:302-329 | afterwards every index is recomputed from current views and statistics, and every model the worker holds is indexed |
| Placement.PlacementStore.UpdateStats | internal/control/scheduler_placement.go:88-104 | the same after one statistics bucket changes |
| Placement.PlacementStore.PreferredPredicted | internal/control/scheduler_placement.go:274-299 | the worker with the lowest final prediction among the indexed, ties by ID; IndexIsCheapest says what that amounts to |
| Placement.PlacementStore.PreferredLocality | internal/control/scheduler_placement.go:303-328 | the best cached worker with capacity whatever the delay, otherwise the best cold one; IndexIsLocal says what best is |
| PlacementScan.PlainPredicted | internal/control/llm.go:351-373 | the plain scan finds the lowest final prediction over all workers with capacity; PlainIsCheapest says what that amounts to |
| PlacementScan.WinnersAgree | internal/control/scheduler_placement.go:274-328 | an index over some of the workers picks the plain scan's winner iff there is nobody to pick or somebody outranks everything the two disagree about |
| PlacementScan.PredictedAgree | internal/control/llm.go:331-373 | so for predictions, colon names included; they disagree only about workers at the sentinel and workers whose cache the index does not see |
| PlacementScan.PredictedAgreeVisible | internal/control/llm.go:331-373 | where no free worker hides the model: same choice iff some indexed worker is ahead of every one at the sentinel |
| PlacementScan.ColonChangesTheChoice | internal/control/hardening.go:394-401 | two workers and a colon name on which the choices differ |
| PlacementScan.PlainLocal | internal/control/llm.go:288-327 | the plain locality scan, both loops and string lookups, finds the best worker by its own ranking; PlainIsLocal says what best is |
| PlacementScan.LookupsAgree | internal/control/scheduler.go:617-627 | over every reported cache string and key lookup agree iff the name has no colon or the cache does not hold the model |
| PlacementScan.ColonNeverKeyed | internal/control/hardening.go:394-401 | no cache holds a model with a colon in its name under its key |
| PlacementScan.LocalityAgree | internal/control/llm.go:272-327 | the locality choices agree iff nobody has capacity or an indexed worker outranks everything the two disagree about, colon names included |
| PlacementScan.LocalityAgreeVisible | internal/control/llm.go:272-327 | where no free worker hides the model: iff no cached worker has capacity or a cached one is ahead of every cold one at its handicap |
| PlacementScan.LocalityDiffers | internal/control/llm.go:272-327 | two workers on which they differ |
| PlacementLaws.IndexIsCheapest | internal/control/scheduler_placement.go:248-299 | the indexed choice is the cheapest worker with a slot and a foreseeable latency, and empty iff there is none: latency so far or 25, for a cold worker model load plus fetch or 100, 25 per eviction, 50 per running task, 25 off for a cold one after the wait; ties by ID |
| PlacementLaws.PlainIsCheapest | internal/control/llm.go:351-398 | so the plain scan among all workers with a slot |
| PlacementLaws.FiftyPerTask | internal/control/llm.go:363 | with history on both sides and all else equal, total latency plus 50 for each running task is least at the chosen worker |
| PlacementLaws.LeastBusy | internal/control/scheduler_placement.go:288 | among workers that are otherwise alike a less busy one is never passed over; ties by ID |
| PlacementLaws.ColdOverCached | internal/control/scheduler_placement.go:289-292 | a cold worker is chosen over a cached one that is as fast and no busier only after the wait, at equal load, and if loading took it at most 25 |
| PlacementLaws.EvictionsCount | internal/control/llm.go:393-396 | each eviction counts like half a running task |
| PlacementLaws.IndexIsLocal | internal/control/scheduler_placement.go:234-328 | the indexed locality choice has a slot and is empty iff nobody has; no cached worker is passed over for a cold one; within a kind 100 per free slot less 10 per running task is greatest, ties by ID |
| PlacementLaws.PlainIsLocal | internal/control/llm.go:288-327 | the plain one maximises that plus 1000 for a cached worker, less 1000 for a cold one while some cached worker has a slot and the wait is not over; ties by ID |
| LockTable.RunInv | internal/actorlock/table.go:33-65 | in every interleaving `refs` counts waiters, holders and releasers, a used entry is the table's, and an entry's mutex is its holder's |
| LockTable.MutualExclusion | internal/actorlock/table.go:33-65 | two goroutines never hold one actor's lock, even across eviction |
| LockTable.TableIsExact | internal/actorlock/table.go:33-76 | the table holds exactly the actors in use and is empty at quiescence |
| LockTable.EvictionGuardRedundant | internal/actorlock/table.go:53-64 | a count that reaches zero belongs to the entry in the table, which is evicted iff the releaser was its last user |
| LockTable.WaiterProgress | internal/actorlock/table.go:33-52 | a waiter may acquire or some goroutine holds the very same entry |
| LockTable.AllLeave | internal/actorlock/table.go:33-76 | in every interleaving the goroutines inside can all leave without a new one coming, and then the table is empty: no deadlock, no entry left behind |
| Notify.RunInv | internal/control/service.go:194-219 | in every interleaving a captured channel is current or closed, and an announced offer that came up after a capture has closed it |
| Notify.NoLostWakeup | internal/control/service.go:551-575 | a blocked poller can wake as soon as something is on offer to it whose notifier - submission, completion, registration or heartbeat - has notified; offers that only time makes are not meant |
| Notify.ClosedOnce | internal/control/service.go:205-219 | no channel is closed twice |
| Notify.BroughtAndWoken | internal/control/service.go:194-219 | what a notifier brings is on offer, and its notification wakes every poller blocked by then |
| Notify.PassEnds | internal/control/service.go:551-575 | a polling poller takes a task or blocks; it never blocks while a task is on offer to it that was there when it captured its channel |
| Notify.TakenOnce | internal/control/service.go:640-692 | no task is taken twice unless it was brought anew in between |

## Left out

- gRPC, generated code, commands, web API, scripts and the Python executor: plumbing around the modelled core.
- Byte encodings: payloads are datatypes, and JSON normalisation forgets insignificant layout.
- The segmented log store, object-store I/O and fsync: streams are sequences, an append happens, is dropped as a repetition of its key, or fails; keys forgotten with compacted records are not modelled.
- Workflows and their steps: the `workflow` package is not part of this model.
- Metadata store internals and Postgres persistence: its contract, with leases valid when status, worker and epoch match.
- Interleavings of handlers inside one handler: `GetTask` misses and status changes between the loops of a redelivery pass, and the rechecks after `Assign`, cannot occur with atomic handlers and are not modelled.
- Worker load counters, and the readiness of a task for a worker (mailbox turn, capacity, policy): an arbitrary set per polling round.
- Which model queues `llmCandidateModelsLocked` inspects and how it ranks them: arbitrary inputs; the pruning of stale heads it does is modelled.
- The predicted-latency policy inside the assignment callback re-enters the scheduler's mutex; the model takes its answer as an input.
- The four queue maps of the scheduler are one map keyed by queue family and key; the placement heaps of a model are a value in the map rather than a pointer, and both heap types are one index with locality ranked by its negated score.
- Sift loops of `container/heap`: the deadline heap is a multiset from which a least lease is taken.
- `sort.Slice`: an insertion sort with the same comparison.
- Wrap-around of 64-bit counters and scores; worker capacity and load are 32-bit.
- The `placement` and `workerCached` maps of cached membership, and bulk loading of statistics, which repeats the modelled single update.
- Equality of LLM statistics between checkpoint and full replay: not promised by the code.
- The legacy FIFO queue path.
- Idempotent actor creation and calls, and callers waiting for an owner or a result.
- Duplicate request keys across restarted task streams.
- ActorService.ActorCell.CreateActor: leaves out the idempotency lookup and the ownership attempt after creation, which EnsureActorOwner states.
- ActorService.ActorCell.SubmitActorCommand: leaves out repeated calls under one idempotency key and the wait for an owner.
- ActorService.ActorCell.Restart: is a start by full replay; one from a metadata checkpoint restores the row as RestoreItemConsistent states, for rows that had not run ahead, and calls with their numbers.
- Notify.NoLostWakeup: work that becomes eligible through elapsed time alone has no notifier in the code and is outside the offers.
- ControlPlane.Control.CompleteTask: takes the outcome of the actor's own step as an input; ActorCell models that step.
- Scheduling.Scheduler.Assign: takes the ranking of model queues as an input, because it follows map order and worker capacity outside the queues.
- TaskLive.CheckpointAnywhere: undisturbed runs only; on all others the two restarts may differ as RestartsAgree, CheckpointsLoseNothing and RestartReturns state.
- TaskRuns.CalmReplay: excludes restarts in the middle of a lease, half-failed passes and completions without a start, whose exact effect RestartReturns states.
- The specification stored beside a checkpointed row: a base holds the submitted one, which differs in the lease epoch that replay overwrites.
