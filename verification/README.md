# Leased task protocol: a verified model

The repository runs subscription cancellations as tasks. A Go API stores each
task in a Postgres row and pushes its id onto a Redis list; any number of Node
workers pop ids, claim rows, run an automation while a timer refreshes the lock,
and write the result back; two loops beside the API put stale and due tasks back
on the list. Nothing coordinates these programs except single SQL statements and
single list operations, so what the system promises holds only of their
interleavings.

This project models that protocol as one transition system and proves what
every run of it keeps. The four programs are then written as methods of classes,
with their loops and early returns, and shown to take only steps of that system,
whatever the others do between two of their statements. The AI automation's
three nested retry loops are a second, smaller part.

## How the model is laid out

| file | contents |
|---|---|
| `TaskTable.dfy` | rows of the table; each SQL statement as a guard and the row it leaves |
| `Protocol.dfy` | the state, the atomic steps of workers, requeuers, schedulers and requests, crashes, heartbeats in flight; runs |
| `Statements.dfy` | each statement column by column, and each decision, said without the functions that compute them |
| `Safety.dfy` | the global invariant `Core`, and how a single step may change the table |
| `History.dfy` | refinement to a per-task machine that checks claim epochs; the ownership fence |
| `Accounting.dfy` | the shape of a row's history, and where its attempts went |
| `Outcomes.dfy` | what the automations reported against what the histories say |
| `WorkBound.dfy` | all model calls ever made for one task |
| `Delivery.dfy`, `Stranding.dfy` | no task is lost unaccounted; exactly which tasks can never run again |
| `Ordering.dfy` | the list as a queue; first in, first out with one worker |
| `Scheduling.dfy` | no early start; scheduled tasks get their tokens back |
| `Leases.dfy`, `Heartbeats.dfy`, `Recovery.dfy` | live workers keep their tasks; missed beats; dead workers' tasks come back |
| `Drain.dfy` | the workers finish, and what is left when they do |
| `Creation.dfy` | idempotent creation and the `created_at = updated_at` test |
| `Universal.dfy`, `Replies.dfy`, `Automations.dfy` | the AI automation: backoff, re-asking, steps; what the model's replies lead to; its runs as steps of the protocol |
| `Deeds.dfy` | what one process did in a run: its steps, what each changed, what it tried to push |
| `Cluster.dfy`, `Processes.dfy`, `Handler.dfy` | the shared state as an object and the programs as methods over it |
| `Limits.dfy` | runs showing what the system does not promise |

A state's history fields (`log`, `lost`, `lastPass`, `work`, `pushed`, `popped`)
are written by steps and read by none. `Exec(Init(start), acts)` is the state
after the actions `acts`; an action that is not enabled changes nothing, so
"for all `acts`" means every run. `World.Valid()` says that the object's fields
are the outcome of its recorded run and that every recorded step was enabled
when taken, so every theorem about runs applies to the objects too; `Took(a)`
says that a method performed exactly step `a`. `Done(p)` lists the deeds of
process `p`: each step it took, with the log entries the step added and the id
it tried to push, both computed from the states before and after the step. A
method's report is tied to that list, so it cannot claim a write that did not
land.

Times are integers in milliseconds. A task id is the row's position in the
table, a worker id the process's position in the list of processes ever started.

## Model

| member | source | states |
|---|---|---|
| Safety.StepWritesOneRow | worker/src/db.js:33-140 | every step of every program leaves the table alone, changes one row by one statement whose guard held and stamps its updated_at, or appends one row under a fresh key |
| Statements.ClaimStored | worker/src/db.js:33-47 | a claim lands exactly on a PENDING or RETRY row: IN_PROGRESS, owner and lock time set, one more attempt, stamped, all else kept, and on record |
| Statements.BeatStored | worker/src/db.js:52-62 | a beat lands exactly on its owner's IN_PROGRESS row and moves lock time and stamp only |
| Statements.ResultStored | worker/src/db.js:72-140 | a result write lands exactly on the writer's row: SUCCESS, RETRY, DEAD_LETTER, or PENDING with the reported date, by the verdict; locks cleared, stamped, all else kept; the event on record is the verdict's; a retry is pushed next |
| Statements.ResetStored | internal/repository/task_repo.go:330-345 | a reset lands exactly on a row IN_PROGRESS and silent for more than 30 s: PENDING, locks cleared, attempts and schedule kept, stamped |
| Statements.InsertStored | internal/repository/task_repo.go:118-158 | an insert under a free key appends the request's own columns and the defaults (PENDING, 0 of 3 attempts, unlocked); under a taken key it changes nothing |
| Statements.FailedInsertStored | internal/handlers/task_handler.go:78-94 | an insert that reports an error has inserted the same row as without one, or nothing, and the request ends |
| Statements.FailedResetStored | internal/queue/requeue.go:113-120 | a reset that reports an error has reset the same row as without one, or nothing; the loop goes on to the next id |
| Statements.VerdictExactly | worker/src/worker.js:153-209 | a reported success is written as one and nothing else is, a reported date as a schedule for that date, a failure as a retry while attempts are left and else as a dead letter |
| Statements.KnownExactly | worker/src/automations/index.js:15-24 | the registry knows "test" and "universal" in any letter case, the two names every object inherits, and no other |
| Statements.LowerIsCaseBlind | worker/src/automations/index.js:22-24 | two names are lowered to the same name exactly when they differ in the case of letters only |
| Statements.ClaimFindsAutomation | worker/src/worker.js:107-118 | after a landed claim a registered service is run, and a name outside the registry goes straight to the dead-letter write |
| Statements.SweepMeetsTheGate | internal/repository/task_repo.go:392-401 | the scheduler fetches a scheduled row from the very instant the stricter Go claim would take it |
| Safety.CoreStep | worker/src/worker.js:95-221 | one step of any process keeps the global invariant: lock fields agree with status, a lock's live owner is inside that task at that attempt, every id on the list or in a hand has a row, keys are unique |
| Safety.CoreAlways | worker/src/worker.js:69-221 | that invariant holds in every state of every run |
| Safety.RunEvolves | migrations/001_create_tasks.sql:23-67 | over any run a row keeps key, service, email, payload, limit and creation time, its attempts never fall, and it leaves PENDING only by gaining an attempt |
| History.Refines | worker/src/db.js:33-140 | each step is a stutter or one legal move of one row in a machine Waiting(epoch, failed), Held(owner, epoch), Finished, Interred that checks owner and epoch |
| History.HistoryAlways | internal/repository/task_repo.go:330-345 | the landed changes of each row replay in that machine to the row's present state; retries landed below the limit, burials at it or without an automation |
| History.LockMeansHolding | worker/src/worker.js:95-98 | a row locked by a worker that has not stopped is the row that worker is inside processTask for, at its current attempt |
| History.FenceIsExact | worker/src/db.js:72-140 | a result write, fenced on the owner alone, lands if and only if the claim it was decided under is the current claim, although there is no epoch column |
| History.LocksAreCoherent | migrations/001_create_tasks.sql:62-66 | IN_PROGRESS, locked_by set and locked_at set are equivalent in every reachable row; a lock is never in the future; FAILED is never reached |
| History.LockTimeMovesForward | worker/src/db.js:52-62 | within one claim the owner stays and locked_at never moves back |
| Accounting.ReplayShape | worker/src/db.js:33-140 | a legal history alternates claims and endings, each ending by the claimer at its own epoch or by the requeuer; it ends in a success exactly when the row is finished and in a burial exactly when it is interred |
| Accounting.TraceShape | worker/src/worker.js:192-209 | the history of every row of every run has that shape, its claims are the attempts; RETRY means last ended by a retry, SUCCESS by a success, DEAD_LETTER by a burial, both absorbing |
| Accounting.ReplayTally | worker/src/worker.js:192-209 | in a legal history claims = retries + schedules + reclaims + successes + burials + (1 if held), and retries stay below the limit |
| Accounting.ClaimAccounting | internal/repository/task_repo.go:330-345 | attempts are exactly accounted for; they exceed max_attempts by at most the reclaims and schedules, hence never without them |
| Accounting.LimitPassedExactly | worker/src/worker.js:192-209 | attempts exceed max_attempts if and only if the claim that reached it was reclaimed or reported a trial end, and a further claim landed |
| Accounting.NextClaimPassesLimit | worker/src/db.js:33-47 | a claimable row is at its limit if and only if its latest claim, at or beyond it, was given back; it is then PENDING, never RETRY |
| Accounting.DeadLettersAreEarned | worker/src/worker.js:111-118 | a dead letter used every attempt or names no known automation |
| Outcomes.OutcomesAreRecorded | worker/src/worker.js:134-209 | over every run: w's claim at attempt k is on record as a success exactly if w's automation reported success there and its write landed; as a retry or burial exactly if it reported failure, by the limit; as a schedule exactly if it reported a trial end; a task without automation is buried unreported |
| Outcomes.SuccessWasReported | worker/src/worker.js:161-167 | a row is SUCCESS exactly if some automation run of it reported success and its worker's write landed |
| WorkBound.WorkAlways | worker/src/worker.js:134-143 | model calls made, plus what running automations may still make, never exceed the per-run bound times the attempts, also when two workers run one task |
| WorkBound.CallsAreBounded | worker/src/worker.js:192-209 | all model calls for one task, by all workers: at most 360 x (max_attempts + reclaims + schedules); none for other services |
| Delivery.StepAccounts | worker/src/worker.js:207-218 | one step of any process keeps every row's delivery accounted for |
| Delivery.OnlyFaultsDrop | internal/queue/requeue.go:129-140 | a token is recorded as dropped only by a crash with it in hand, a failed push of it, a statement applied despite its error, or a trial end without a date |
| Delivery.NoTaskIsLost | internal/handlers/task_handler.go:97-117 | in every run each claimable row has a token on the list or in a hand, or is PENDING with a schedule, or lost its token to a failed push or a crash with no push or claim since |
| Stranding.OrphanedForever | internal/handlers/task_handler.go:109-117 | a claimable, unparked row without token or carrier is never changed by any continuation that does not look up its key, nor by any at all once it no longer looks new |
| Stranding.OrphanedExactly | internal/handlers/task_handler.go:109-117 | a claimable row can be claimed with no further request for its key if and only if it is not such an orphan |
| Stranding.StrandedForever | internal/repository/task_repo.go:286-294 | a stranded row (an orphan that no longer looks new) is never changed again by any continuation |
| Stranding.StrandedExactly | internal/queue/requeue.go:129-140 | a claimable row can be claimed by some continuation, repeated requests included, if and only if it is not stranded |
| Stranding.OrphanedWasLost | internal/queue/requeue.go:129-140 | only a token dropped by a failed push or a crash makes an orphan |
| Stranding.FailedRepushStrands | internal/queue/requeue.go:129-140 | in every reachable state, the push failing after a reset strands the row if and only if it is still claimable and unscheduled, off the list and served by no other process |
| Ordering.ListIsConserved | internal/queue/producer.go:43-50 | in every run, all pushes in order are all pops followed by the list from tail to head |
| Ordering.OneWorkerIsFifo | worker/src/worker.js:72-91 | with one live worker at a time, landed claims are a subsequence of the push order |
| Scheduling.OnTimeAlways | internal/queue/scheduler.go:66-91 | with no trial end reported and the API clock not ahead, every token in the list or in a hand is for a row whose schedule is reached |
| Scheduling.NoEarlyClaim | internal/repository/task_repo.go:225-234 | in such runs the worker's claim, which ignores the schedule, lands only where the stricter Go claim would accept, or on a retry that is due |
| Scheduling.SweepsHealAlways | internal/queue/scheduler.go:78-91 | every row a still-successful pass has pushed was attempted since, has a token, or lost the new token to a crash |
| Scheduling.PassHeals | internal/repository/task_repo.go:392-424 | at the end of a pass without push errors every row it fetched and nobody attempted since is PENDING and has a token again, whatever happened to earlier ones, unless a crash dropped the new token too |
| Leases.LeasedAlways | internal/repository/task_repo.go:336-338 | in punctual runs every live worker inside a task owns its row |
| Leases.LiveWorkersKeepTheirTasks | worker/src/worker.js:120-143 | in punctual runs no live worker is reclaimed, no two share a task, and every result write lands |
| Leases.PassTakesOnlySilentRows | internal/queue/requeue.go:92-125 | over any run of at most 30 s from a scan to a reset: a row the reset changes was IN_PROGRESS at the scan, is in that same claim untouched, and no beat for it landed since |
| Leases.RecoversAlways | internal/queue/requeue.go:92-148 | behind the latest clean pass no row is locked from longer than the threshold before its scan, whatever interleaves with the loop |
| Leases.RecoveryBound | internal/queue/requeue.go:22-26 | while the scan of the latest clean pass is at most gap old, no IN_PROGRESS row is silent for more than threshold + gap: 40 s for a gap of 10 s |
| Recovery.DeadWriteNothing | worker/src/index.js:9-17 | after its end a worker adds nothing to any row's history |
| Recovery.UnbeatenLockStays | worker/src/db.js:52-62 | while a claim lasts and no beat of its owner arrives, the row does not change |
| Recovery.DeadWorkersTaskComesBack | internal/queue/requeue.go:24-26 | threshold + gap after a dead worker's last beat its claim has been taken back by the requeuer; until claimed again the row is PENDING and has a token, or waits for the scheduler, or its token was dropped |
| Heartbeats.ShortSilenceIsSafe | worker/src/worker.js:24-28 | with at most k consecutive misses and (k+1)(10 s + jitter) + delay <= 30 s the lock is fresh at every instant |
| Heartbeats.ToleranceIsExact | internal/queue/requeue.go:13-22 | every conforming heartbeat is safe if and only if (k+1)(10 s + jitter) + delay <= 30 s |
| Heartbeats.TwoMissedBeats | worker/src/worker.js:24-28 | two missed beats are survived only with zero jitter and zero delay; one leaves ten seconds for both; three are never survived |
| Heartbeats.LockTimeIsLatestBeat | worker/src/db.js:52-62 | throughout a claim, in any run, locked_at is the latest beat landed or the claim |
| Heartbeats.ConformingWorkerKeepsItsLock | internal/repository/task_repo.go:292-293 | while its claim stands, a worker with a tolerated pulse, or within 30 s of its claim or last beat once the timer is cleared, has a lock neither the scan nor the reset takes |
| Heartbeats.ConformingWorkerIsNeverReclaimed | worker/src/worker.js:124-167 | such a worker owns its row, at its own attempt, at every point of any run from the claim until it leaves processTask |
| Drain.WorkDecreases | worker/src/worker.js:69-92 | every worker step but a heartbeat strictly decreases a measure built on claims left, list length and steps owed |
| Drain.DrainIsBounded | worker/src/worker.js:192-220 | left to themselves the workers take at most Measure(s) steps |
| Drain.StuckWorkersIdle | worker/src/worker.js:69-92 | when no worker step is left every live worker waits on an empty list |
| Drain.DoneMeansSettled | worker/src/worker.js:69-221 | then every row whose token was not dropped is terminal, PENDING with a schedule, or locked by a dead worker |
| Drain.DrainFinishes | worker/src/worker.js:69-92 | from every state worker steps alone lead to one where no worker step is left |
| Drain.WorkersSettleEverything | worker/src/worker.js:69-221 | from a reachable state with a live worker the workers can finish, and whichever way they do every row whose token was not dropped before is settled |
| Creation.AnswersAgree | internal/repository/task_repo.go:94-174 | any two requests holding a task for one key hold the same row: same id, service, email, payload; one row per key |
| Creation.LookupFinds | internal/repository/task_repo.go:349-384 | after a conflict the lookup by key always finds a row |
| Creation.FirstWinnerStays | internal/repository/task_repo.go:118-158 | every later answer for a key repeats the winning insert's service, email and payload |
| Creation.TimestampsAlwaysTell | migrations/001_create_tasks.sql:86-97 | if each claim is later than its row's insert, created_at = updated_at if and only if attempts = 0, in the table and in every answer |
| Creation.EnqueuesExactlyUnclaimed | internal/handlers/task_handler.go:98-123 | then a create or replay goes on to enqueue exactly when the row it read was never claimed and its schedule, if any, is reached; 201 exactly when never claimed |
| Creation.SameInstantClaimFoolsTheTest | internal/handlers/task_handler.go:98 | the test stays right across a landed claim if and only if the clock advanced since the insert |
| Universal.GenerateWithBackoff | worker/src/automations/universal.js:139-176 | the loop with its early exits makes the calls and sleeps of Backoff; the trailing throw is unreachable |
| Universal.AskGeminiForAction | worker/src/automations/universal.js:182-207 | the re-asking loop agrees with Ask; the trailing return is unreachable |
| Universal.Cancel | worker/src/automations/universal.js:209-441 | the step loop with all its exits agrees with Cancelled in outcome, calls and sleep |
| Universal.BackoffMeaning | worker/src/automations/universal.js:145-174 | all calls but the last met transient errors; the last answered, failed for good, or was the sixth |
| Universal.BackoffBound | worker/src/automations/universal.js:144-172 | at most 6 calls and 225 s; 180 s when no error carries a delay hint |
| Universal.AskBound | worker/src/automations/universal.js:185-205 | at most 18 calls and 675 s; a usable move is the last reply's JSON |
| Universal.StepsBound | worker/src/automations/universal.js:239-419 | at most 18 calls a step for the steps left; never a trial end; success only on the model's word |
| Universal.CancelBound | worker/src/automations/universal.js:54-58 | one run makes at most 360 calls and 13500 s of backoff, and succeeds only if its last reply said done with success |
| Universal.CancelBoundIsReached | worker/src/automations/universal.js:54-58 | some replies make one run reach both figures exactly |
| Replies.BackoffPauses | worker/src/automations/universal.js:163-172 | a backoff sleeps after every call but the last: the hint up to 45 s, else 15 s, 30 s, then 45 s |
| Replies.LastReplyDecides | worker/src/automations/universal.js:190-205 | the last reply decides an asking: JSON is used, a throw is passed on, an unreadable answer gives up |
| Replies.OnlyTheseRepeat | worker/src/automations/universal.js:185-205 | an asking goes on only after a transient error or an unreadable answer, never after a throw |
| Replies.ThreeUnreadableAnswers | worker/src/automations/universal.js:197-203 | the third unreadable answer of an asking, and no earlier one, gives it up |
| Replies.RunIs | worker/src/automations/universal.js:239-419 | a run makes exactly the calls of the askings at its first m steps, all but the last of them answered by an action that was carried out, and stops there for a stated reason |
| Replies.CancelledExactly | worker/src/automations/universal.js:209-441 | a run succeeds exactly if its last reply says done with success and the browser closes, and otherwise fails; it makes a call exactly if it gets to a first page without a wall and with a screenshot |
| Replies.NothingAskedPast | worker/src/automations/universal.js:246-259 | no call is made at or after a step behind a wall or without a screenshot, nor after an action that could not be carried out |
| Automations.UniversalRunFits | worker/src/automations/universal.js:209-441 | whatever the model and the page do, the outcome and calls of a run are an enabled finish step of the worker inside it, with no trial end |
| Automations.UniversalVerdict | worker/src/worker.js:153-209 | what the worker writes after such a run: success only on the model's last word, else a retry, or a dead letter on the last attempt |
| Limits.NoCeilingOnAttempts | worker/src/db.js:33-47 | for every n some run brings a row with limit 3 to n attempts: neither claim nor requeue checks the limit |
| Limits.SilentWorkersShareATask | worker/src/worker.js:120-132 | without timely beats two live workers can be inside one task |
| Limits.LostPushStrandsForGood | internal/queue/requeue.go:134-139 | one failed push after a reset can leave a PENDING row that no continuation ever touches |
| Limits.LostCreatePushWaitsForTheClient | internal/handlers/task_handler.go:109-117 | a request answered 201 whose push failed leaves a row that nothing touches until its key is requested again; then it can still run |
| Limits.RecoveryBoundIsReached | internal/queue/requeue.go:24-26 | for every gap some run has a row silent for exactly threshold + gap with the latest clean scan gap old |
| Limits.ToleranceIsExactInRuns | worker/src/worker.js:24-28 | every watched live worker of every run keeps its row, under conforming pulses whose firings are the beats it sent, if and only if (k+1)(10 s + jitter) + delay <= 30 s; otherwise a run is built in which one sends its beats, loses the missed ones and is reclaimed |
| Limits.SlowPassTakesBeatenRow | internal/queue/requeue.go:110-125 | a run in which a pass resets a row, from a worker still running, just over 30 s after its scan although a beat landed since |
| Limits.PassIsSafeForExactlyTheThreshold | internal/repository/task_repo.go:326-338 | no row beaten since the scan is reset within d of it, in any run, if and only if d <= 30 s |
| Limits.TrialEndCanStartEarly | worker/src/worker.js:153-159 | with an automation that reports a trial end, a duplicate token lets a worker claim before the schedule |
| Limits.FastApiClockStartsEarly | internal/handlers/task_handler.go:108-109 | an API clock ahead of the database's by any amount lets a first claim land before the schedule |
| Limits.ReplayCanBeCreated | internal/handlers/task_handler.go:119-123 | two requests can both be answered 201 for one row |
| Limits.ClaimedRowCanBeCreated | internal/handlers/task_handler.go:98-118 | a claim at the instant of the insert lets a replay be answered 201 and push a row that is IN_PROGRESS |
| Limits.RegisteredTaskRuns | worker/src/worker.js:95-136 | from an empty system some run brings a task of each registered service, however its name is spelled, into its automation |
| Deeds.TriesArePushes | internal/queue/producer.go:43-50 | the list gains exactly the id a step tried to push, unless its push fails, which changes nothing on it |
| Cluster.World.BRPop | worker/src/worker.js:81-88 | takes the tail of the list into the worker's hand and nothing else |
| Cluster.World.ClaimTask | worker/src/db.js:33-47 | claims exactly a PENDING or RETRY row for this worker, column by column, and returns it as claimed; otherwise returns nothing, changes no row, and the worker is idle |
| Cluster.World.SendHeartbeat | worker/src/worker.js:124-132 | puts one heartbeat statement in flight |
| Cluster.World.FinishAutomation | worker/src/worker.js:153-192 | a success becomes the success verdict and nothing else does, a date its schedule, a failure a retry while attempts are left, else a dead letter |
| Cluster.World.WriteResult | worker/src/db.js:72-140 | the fenced result write; returns true exactly when the row is locked by this worker, and leaves that row as the verdict says, column by column, and no other row changed |
| Cluster.World.LPushRetry | worker/src/worker.js:218 | pushes the retried id to the head |
| Cluster.World.Enqueue | internal/queue/producer.go:43-50 | one id at the head of the list |
| Cluster.World.Die | worker/src/index.js:9-17 | a crash drops what the process carried and changes no row |
| Cluster.World.GetStaleInProgressTasks | internal/repository/task_repo.go:286-320 | a scan step whose ids are those of the result set |
| Cluster.World.CollectStale | internal/repository/task_repo.go:305-319 | the row loop returns exactly the ids IN_PROGRESS and silent for more than 30 s, each once |
| Cluster.World.RequeueTask | internal/repository/task_repo.go:330-345 | resets the row, column by column, and reports true exactly when it is still silent for more than 30 s; otherwise the table is unchanged |
| Cluster.World.GetPendingScheduledTasks | internal/repository/task_repo.go:392-424 | a sweep step over exactly the due rows |
| Cluster.World.CollectDue | internal/repository/task_repo.go:409-423 | the row loop returns exactly the PENDING rows with a schedule that is reached, as they are |
| Cluster.World.InsertTask | internal/repository/task_repo.go:118-158 | inserts the request's columns with the defaults exactly when the key is free; otherwise changes no row |
| Cluster.World.GetTaskByIdempotencyKey | internal/repository/task_repo.go:349-384 | returns the row of the key as it is now; it always exists here |
| Processes.Worker.RunAutomation | worker/src/worker.js:124-143 | the worker's own deeds are its beats: at most one for each 10 s elapsed, and, when it looks at its timer at least every L ms, at least one for each further 10 s + L |
| Processes.Worker.Write | worker/src/db.js:72-140 | one fenced write, reported as landed exactly when the log gained this worker's verdict at its own attempt |
| Processes.Worker.WriteUp | worker/src/worker.js:153-220 | that write, and one push of the id if and only if a retry landed |
| Processes.Worker.RunAndWriteUp | worker/src/worker.js:120-220 | the beats, one verdict, and the write and push that follow it, with landed as the log has it |
| Processes.Worker.TryClaim | worker/src/worker.js:98-118 | one claim; a claimed row of a registered service is run, one of a name outside the registry goes straight to the dead-letter write |
| Processes.ReportsPay | worker/src/worker.js:204-218 | however a call goes, the ids it tried to push are the ids of the retries that landed |
| Processes.Worker.ProcessTask | worker/src/worker.js:95-221 | unless it dies, does exactly the deeds of its report under any interference, pushes tried being retries landed, and ends idle, owning no row |
| Processes.Worker.Turn | worker/src/worker.js:72-91 | at most one popped id, dealt with to the end; none only if the list was empty |
| Processes.Worker.Loop | worker/src/worker.js:69-92 | the worker's deeds are whole rounds, one pop each; a live worker leaves the loop only on the shutdown signal, and then no row is locked by it |
| Processes.Requeuer.ResetFails | internal/queue/requeue.go:113-120 | an error reply moves on without a push, whether or not the reset was applied, and marks the pass unclean |
| Processes.Requeuer.TryReset | internal/queue/requeue.go:112-125 | reports true exactly when the log gained the row's reclaim; then the push is next, otherwise the next id |
| Processes.Requeuer.PushBack | internal/queue/requeue.go:127-140 | one push attempt, then the next id, also when it fails |
| Processes.Requeuer.ResetOne | internal/queue/requeue.go:110-147 | one id: one reset attempt, whose outcome is as the log has it, and a push attempt of that id exactly if the reset took the row back |
| Processes.PaysOn | internal/queue/requeue.go:110-147 | each further id keeps the ids tried equal to the ids taken back |
| Processes.Requeuer.ResetAll | internal/queue/requeue.go:110-147 | the loop: each scanned id once, in order; the pushes tried, read off the steps, are the reclaims the log gained, in order |
| Processes.Requeuer.RunOnce | internal/queue/requeue.go:92-148 | under any interference: one scan, each scanned id tried once in order, a push attempted for exactly the ids whose rows the pass took back, each once |
| Processes.Scheduler.RunOnce | internal/queue/scheduler.go:66-92 | one query, and one push attempt of each fetched row's id, in order, going on after a failure |
| Processes.IdleOwnsNothing | worker/src/worker.js:229-233 | a worker back at the list holds no lock |
| Handler.TrimmedAway | internal/handlers/task_handler.go:225-233 | trimming leaves nothing of a string exactly when every character is white space |
| Handler.TrimmedPiece | internal/handlers/task_handler.go:225-233 | trimming leaves the piece of the string between its leading and trailing white space |
| Handler.SpacesAre | internal/handlers/task_handler.go:225-233 | white space is the 25 Unicode code points that trimming cuts |
| Handler.ValidateCreateTaskRequest | internal/handlers/task_handler.go:222-239 | one message for each blank field, in field order, and no other |
| Handler.TaskHandler.InsertOrFetch | internal/repository/task_repo.go:118-173 | one insert, and a lookup exactly if the key was taken; an error leaves no process behind |
| Handler.TaskHandler.EnqueueIfNew | internal/handlers/task_handler.go:98-123 | one push attempt of the row's id exactly for a new row whose schedule, if any, is reached; 201 for new, 200 otherwise, also when the push fails |
| Handler.TaskHandler.Stores | internal/handlers/task_handler.go:77-126 | from the insert on: an answer is the row its process read, with code and push decided by it, in exactly those deeds; an error is one failed insert and nothing else |
| Handler.TaskHandler.CreateTask | internal/handlers/task_handler.go:62-126 | 422 exactly on a blank field and 500 at once on an unparsable key, changing nothing; every other request is one new process, finished when it is not answered; an answer carries the row read, about the only row of its key, and a row it inserted has the raw request's service, email, payload and schedule, PENDING with 0 of 3 attempts, and 201 |
| Handler.AnsweredWell | internal/handlers/task_handler.go:78-94 | every answered request of every run holds the only row of its key |

## Where the code and its comments disagree

The model follows the code. These remarks in the repository are not true of it:

- Two missed beats are said to fit (worker/src/worker.js:24-27). `Heartbeats.TwoMissedBeats`: only with no jitter and no delay at all; `Limits.ToleranceIsExactInRuns` for whole runs.
- The next requeue scan is said to catch a task whose push failed (internal/queue/requeue.go:134-136). The scan reads IN_PROGRESS rows only; `Stranding.StrandedExactly` gives the exact set that is never caught, `Limits.LostPushStrandsForGood` a run.
- The requeue loop is called the safety net of a failed create push (internal/handlers/task_handler.go:111). It is not, for the same reason; `Limits.LostCreatePushWaitsForTheClient` gives a run. By `Stranding.OrphanedForever`, `Stranding.OrphanedExactly` and `Stranding.StrandedExactly`, such a row runs only if its client repeats the request while the row still looks new.
- 201 is said to mean newly created (internal/handlers/task_handler.go:58-60). `Creation.EnqueuesExactlyUnclaimed` and `Limits.ReplayCanBeCreated`: it means not claimed yet when read.
- Retries are said to be bounded (migrations/001_create_tasks.sql:41). `Limits.NoCeilingOnAttempts` gives runs past every bound, and `Accounting.LimitPassedExactly` the exact condition: a claim at the limit that is reclaimed or reports a trial end is not counted against it.
- Recovery is said to take threshold + interval = 40 s at worst (internal/queue/requeue.go:25). That leaves out how long a pass takes: `Leases.RecoveryBound` counts from the scan of the latest pass that finished, and `Limits.RecoveryBoundIsReached` shows the figure is reached for every such gap.

## Conditions used

- `Leases.LiveWorkersKeepTheirTasks` is about punctual runs, in which no clock step carries a live worker's lock past 30 s. `Heartbeats.ConformingWorkerIsNeverReclaimed` starts from the heartbeats themselves instead: at each point of the run the pulse is still going with the beats due arrived, or the claim or some arrived beat is at most 30 s old, as it must be from the end of the automation to the result write. `Limits.ToleranceIsExactInRuns` shows its bound to be the exact one.
- That a pass changes no row beaten since its scan is false of the code when more than 30 s pass between the two (`Limits.SlowPassTakesBeatenRow`), and true up to exactly 30 s (`Limits.PassIsSafeForExactlyTheThreshold`). `Leases.PassTakesOnlySilentRows` holds for any state at most 30 s before the reset, the scan or a later one.
- `Scheduling.NoEarlyClaim` needs that no automation reports a trial end (none in the registry does) and that the API's clock is not ahead of the database's. `Limits.TrialEndCanStartEarly` and `Limits.FastApiClockStartsEarly` drop one condition each.
- `Creation.TimestampsAlwaysTell` needs each claim to come later than its row's insert; `Creation.SameInstantClaimFoolsTheTest` shows that this is needed claim by claim.
- `Drain.DrainIsBounded` and `Drain.WorkersSettleEverything` are about runs of workers, clock and heartbeats alone, without trial ends.

## Left out

- Processes.Worker.Loop: the shutdown signal comes before some turn, however late, since a method has to end; a worker that is never stopped is the protocol's unbounded runs. The tickers of the requeuer and the scheduler, and their start and stop, are in the same way left to `Spawn` and to the passes themselves.
- Processes.Worker.RunAutomation: how late the event loop looks at the timer is a parameter; it is the jitter of `Heartbeats`.
- Cluster.World.GetStaleInProgressTasks: returns rows in table order; the protocol's scan step allows every order.
- Handler.TaskHandler.CreateTask: HTTP decoding, JSON and UUID parsing are outside; the parsed key is a parameter, and its failure is the error branch. A lookup that fails is a request that dies there. The errors' texts and the joined message of several blank fields are not modelled.
- Identifiers: row and worker UUIDs are assumed fresh and are modelled by positions.
- Postgres and Redis inside: each statement and each list operation is one atomic step. A statement in flight when its process dies is a landed step followed by the crash. A database or Redis error seen by a worker ends the worker, as an unhandled rejection does, and is a crash.
- Columns error_message and evidence_path, screenshots and saved evidence: nothing reads them to decide anything.
- Clocks: the database has one clock that never runs backwards; the API's clock is a free reading.
- UpdateTaskStatus (internal/repository/task_repo.go:260-274): an unfenced write to any status without a caller. The fence would not survive it.
- The Go ClaimTask (internal/repository/task_repo.go:225-256) has no caller either and is modelled only as the stricter gate of `Scheduling.NoEarlyClaim`.
- The model, the browser and the page: oracles. Prompts, locators and waits between steps are not modelled; a reply is what the loops distinguish, and the automation of the test service may have any outcome.
- Service names: lower-casing covers ASCII letters only. Two names every JavaScript object inherits count as known, as the registry lookup finds them.
- Read endpoints, metrics, server start-up and connection retries, front end and deployment: no property that spans operations.
