# DistribuQ: the job lifecycle

DistribuQ keeps jobs in Postgres and passes references to them through Redis. Four kinds of process share the two
stores: the API that submits, cancels and replays jobs, any number of workers, the reaper and the scheduler. Nothing
spans both stores: a row is committed first and the matching Redis command follows, so every guarantee of the system
depends on what each process still has in its hands between two atomic actions. The project's own aim is that no job
is ever stuck in RUNNING and none is silently lost, whichever workers are killed.

This project models that system and proves what it guarantees, over all runs.

## How the model is built

* **Values.** `Tables` holds one function per SQL transaction, `Queues` one per Redis command and the promotion
  script, `Recurrence` and `Backoff` the two numeric parts. `Domain` is the shared vocabulary.
* **Programs.** `Store.Database` and `Broker.Redis` change the tables and the lists in place, statement by statement
  and loop by loop, and are proved against those functions. On top of them `Workers`, `Daemons` (the reaper),
  `Scheduling` and `Api` are the processes themselves, with the loops and branches of the source.
* **The protocol.** `Protocol` is a transition system whose steps are the committed transactions, the single Redis
  commands, the script, clock ticks, crashes, a Redis flush and lost pushes. Between two steps a process keeps its
  state: a worker's phase (popped, reserved, executing, finished but without successor, ...) and, for every id that is
  committed but not yet pushed, the route it will take (`Hands`). History per job, which no process reads, records
  locks, reclaims, replays, the locks before the last replay, and the recurrence chain.
* **The link.** `Traces` says what it means that steps lead from one state to another. The process methods, both main
  loops included, have a `...Trace` lemma each (in `WorkerRuns`, `SchedulerRuns`, `Daemons` and `Api`) showing that
  what the method leaves in the stores is where a run of protocol steps ends; so have reservation, registration,
  heartbeat and withdrawal (`ReserveTrace`, `BlockTrace`, `RegisterTrace`, `BeatTrace`, and the last step of
  `WorkerRuns.StartTrace`). `Traces.Continues` appends such a run to any run, so what holds along every run holds for
  the processes. None of these runs skips a succession whose time can be computed (`Protocol.NeedlessSkip`).
* **The theorems.** One module for each question: `Custody` (is anything lost), `Attempts` (how often does a job
  run), `Punctuality` (never early), `Ownership` (mutual exclusion), `References` (Redis agrees with Postgres),
  `Lifecycle` (state machine, dead letters, retry times), `Chains` (recurrence), `Recovery` (how long RUNNING can
  last), `Processing` (the processing list), `Termination`, `Progress`, `Drivers` and `Games` (everything finishes),
  `Ordering` (who is served first), `Routing` (in which tier a job waits), `Retries` (how long it waits between
  attempts), `Reporting` (what a worker's row tells), `Counterexamples` (what fails without the
  assumptions, and the routing by priority). `Frames` states once what each kind of step leaves alone.

## What the theorems assume

The claims are false of the code without assumptions, and each theorem names the ones it needs in its `requires`.

* `Run` from `Initial`: nothing else. Workers may outlive their locks ("zombies"), resync may duplicate references,
  Redis may lose everything. Execution counts, punctuality, dead-letter records and the processing list need only this.
* `Survivable` steps: no worker dies between taking an id from a list and locking the row, or between inserting a
  successor and scheduling it; no push is dropped; Redis is not flushed; and no cancel request removes entries in a
  step of its own. `Custody.LostExactlyWhenDropped` gives the exact condition, that a step destroys the last
  reference of a job; `Counterexamples` shows two reachable runs that lose a job.
* `TimelyRun`: live workers refresh their row at least every `beat` seconds, `beat` is within both timeouts, and an
  execution ends within the visibility timeout of its lock. The accuracy of the failure detector is *derived* from
  this (`Ownership.LiveExecutionIsNotStale`).
* `BeatingRun`: the heartbeat half of that alone; handlers may take any time. The recovery bounds need only this.
* `LoyalRun`: timely and survivable, the row update and the removals of a cancel request happen as one step, and the
  scheduler does not resynchronise mid-run.
* `ContinuingRun`: timely, and no occurrence of the chain in question loses its successor to an error.
  `Chains.CarefulRunContinues` derives it from the rule alone for workers that skip only what cannot be computed.
* The cron library answers with a time after its base (`Recurrence.CronMovesForward`).

## Where code and documents disagree

The model follows the code.

* The project's specification asks for the state machine to be enforced in code. The three outcome updates, the lock
  of a RETRYING row and the reset of a replay have no status guard to that end (worker/db.py:55, worker/db.py:76,
  worker/db.py:111, worker/db.py:128, api/db.py:160), so a zombie can re-open a SUCCESS job or overwrite its result
  (`Counterexamples.ZombieReopensSuccess`, `Counterexamples.ZombieOverwritesResult`).
  `Lifecycle.StepConformsExactly` gives, for every step of every run, the guard that decides; timely, loyal runs keep
  it (`Lifecycle.StepConforms`).
* The documented machine leaves RUNNING through FAILED. The code writes FAILED only for a cancelled PENDING job; a
  failed attempt goes straight to RETRYING or DEAD_LETTER.
* Cancel is documented as a no-op for a running job. The row is left alone, but the queue entries are
  removed whatever the status (api/main.py:263-269). In exact states this removes nothing
  (`References.CancelOfBusyJobTouchesNothing`); interleaved with a retry it loses the job
  (`Counterexamples.CancelOfRunningJobLosesIt`).
* Jobs are documented to wait in the tier of their priority (README.md:122-126). The promotion script, the
  standalone reaper and a replay push onto the default queue whatever the priority, so a scheduled job of priority 10
  waits in the default tier (`Counterexamples.UrgentJobWaitsInDefault`). `Routing.StepRoutesExactly` says of every
  step of every run when it misroutes a job, `Routing.DirectJobsKeepTheirTier` which jobs are never misrouted.
* The scheduler's reaper cycle does not touch the processing list, so entries of crashed workers stay there for ever
  (`Processing.CrashedEntryStays`); the standalone reaper removes one entry for each reclaimed job.
* parse_interval ignores case, compute_next_run does not: "@EVERY 5m" is an interval of 300 seconds to the one and a
  cron expression to the other (`Recurrence.UpperCaseIsRefused`). Of the rules that parse_interval accepts, exactly
  those with the keyword in lower case run at their interval (`Recurrence.IntervalRunsAreEvenlySpaced`).
* A worker that crashes between recording SUCCESS and inserting the successor ends the recurrence chain silently
  (`Chains.DeadFinisherEndsChain`).
* The empty recurrence rule passes validation and means "does not recur".

## Model

| member | source | states |
|---|---|---|
| Custody.LostExactlyWhenDropped | worker/db.py:229-243 | a step from a state with nothing lost loses a job if and only if it destroys the last reference of a job that still has to run |
| Custody.NeverLost | worker/db.py:222-289 | in every reachable state of a survivable run each row is final, or RUNNING with both lock columns, or RETRYING with a due time, or PENDING with a reference in a list, the scheduled set or a live process's hands; zombies allowed |
| Custody.LocksAlwaysMatch | worker/db.py:49-56 | in any run a row is RUNNING exactly while both lock columns are set, and a RETRYING row has a due time |
| Grounding.AlwaysGrounded | api/models.py:21 | every id anywhere in Redis, in a process or in a dead letter has a row, and every row has max_attempts at least 1 |
| Attempts.ExecutionBound | worker/worker.py:211-217 | in every run, zombies and replays included, a job is executed at most max_attempts times for its submission and for each replay, plus once for each reclaim; its attempts column is exactly the number of executions since the last replay |
| Attempts.CountedAlong | worker/db.py:102-117 | the invariant behind it: locks taken, the lock that is open, and the running executions that may still re-open the row, are together paid for by submission, reclaims, replays and attempts since the last replay |
| Attempts.AttemptsSinceReplay | api/db.py:150-162 | after a replay the attempts column counts the executions from the replay on |
| Punctuality.NeverEarly | api/redis_client.py:149-194 | whoever sees an id outside the scheduled set, in a tier list, in a worker or RUNNING, sees it at or after its scheduled_for; resync and Redis loss allowed |
| Punctuality.AlwaysPunctual | scheduler/scheduler.py:58-86 | the invariant behind it: the scheduled set shows the row's own time, and a job that is not due has only been seen by the set, a pending ZADD or a cancellation |
| Ownership.LiveExecutionIsNotStale | worker/db.py:222-251 | the reclaim condition never holds of a job that a live worker is executing |
| Ownership.MutualExclusion | worker/worker.py:156-180 | a live executor finds its row RUNNING, locked by itself since its own lock time at its own attempt number, and no two live workers execute one job |
| Ownership.AlwaysOrderly | worker/db.py:49-56 | ownership, dead letters and registration agree in every state of a timely run |
| References.AlwaysExact | api/redis_client.py:87-158 | the references to a job over lists, scheduled set and hands number exactly 1 when PENDING, at most 1 when FAILED, and 0 otherwise |
| References.CancelOfBusyJobTouchesNothing | api/main.py:260-276 | cancelling a RUNNING, RETRYING, SUCCESS or DEAD_LETTER job changes nothing at all |
| Lifecycle.StepConforms | worker/db.py:67-139 | every step follows the state machine, each transition made only by its own kind of step |
| Lifecycle.StepConformsExactly | worker/db.py:67-139 | in any run, zombies, resync and losses included, a step follows the state machine and leaves SUCCESS and FAILED rows as they are if and only if a guard on the row holds: for an outcome that the row is RUNNING, or already has the RETRYING or DEAD_LETTER being written, or is SUCCESS with the very result and no error; for a lock that it is not RETRYING; for a replay that it is DEAD_LETTER or PENDING; all other steps always |
| Lifecycle.FinalRowsNeverChange | worker/db.py:67-82 | a SUCCESS or FAILED row, its result and its error are never written again |
| Lifecycle.DeadLetterIsRecorded | worker/db.py:120-139 | in every run, zombies included, a DEAD_LETTER job has a dead letter |
| Lifecycle.DeadLetterIntegrity | worker/worker.py:211-224 | a dead letter exists iff the status is DEAD_LETTER, it is unique, and its attempts_made equals the job's attempts, which lie between max_attempts and that plus the reclaims; exactly max_attempts without crashes |
| Lifecycle.ReplayedJobRunsItsAttempts | api/db.py:150-162 | without crashes, a job that is dead-lettered again after a replay has been executed exactly max_attempts times since the replay |
| Lifecycle.ReplayFindsUnheldJob | api/db.py:125-164 | a replay, which carries no status guard, only ever resets a DEAD_LETTER job that no waiting list, no pending push and no live worker can still start or change; a live worker concerned with it has only the acknowledgement left, and a processing entry belongs to such a worker or to a crashed one |
| Lifecycle.NoEarlyRetry | worker/db.py:268-289 | every successful lock takes a PENDING row whose next_retry_at is past; the RETRYING half of the lock guard is never used |
| Lifecycle.NoCrashNoReclaim | worker/db.py:229-243 | without crashes a timely run never reclaims anything |
| Retries.WaitExactly | worker/retry.py:5-25 | the step that records the n-th failed attempt makes the job wait min(300, (1 + u/2) * b * 2^(n-1)) seconds, for draw u |
| Retries.HigherNumbersWaitLonger | worker/worker.py:214-216 | in every run, a retry recorded at a higher attempt number waits at least as long, and strictly longer below five minutes |
| Retries.RetriesBackOff | worker/worker.py:214-216 | in timely runs the attempt numbers and the waits grow from each recorded failure of a job to the next, until it is replayed |
| Reporting.CounterIsOutcomes | worker/worker.py:180-231 | in every run the counter of a worker is the number of outcomes it has recorded, failures included |
| Reporting.BeatReports | worker/heartbeat.py:36-47 | right after a heartbeat the worker row is ALIVE, heard of now, and tells that number |
| Reporting.RegistrationIsFresh | worker/db.py:171-190 | a worker registers as ALIVE, started and heard of now, with nothing done |
| Reporting.StartTimeStays | worker/db.py:171-190 | no heartbeat, expiry or withdrawal changes the start time of a worker |
| Chains.ChainAlways | worker/worker.py:187-208 | the invariant of a recurrence chain along continuing runs |
| Chains.OneLiveOccurrence | worker/worker.py:187-208 | a chain has at most one occurrence that can still run, and exactly one unless its end was cancelled, dead-lettered or is with a worker between SUCCESS and its successor; that worker is alive unless a crash hit this chain at that very point; replay keeps this |
| Chains.DeadFinisherEndsChain | worker/worker.py:187-208 | after such a crash no occurrence of the chain is open ever again |
| Chains.CarefulRunContinues | worker/worker.py:187-208 | workers that skip a succession only where the next run cannot be computed continue every chain whose rule always has a next run, so the two results above cover them |
| Chains.EvenChainContinues | worker/recurrence.py:44-53 | for an interval rule this needs no assumption about the cron library |
| Chains.AlwaysSharesSpec | worker/db.py:292-327 | every occurrence of a chain has the columns of the submission that started it |
| Chains.SuccessorIsLater | worker/db.py:292-327 | each successor is scheduled strictly after the instant it was computed |
| Recovery.BoundedLockAge | worker/db.py:222-251 | in any run, zombies included, a RUNNING row has a lock no older than the visibility timeout plus the age of the last reclaim |
| Recovery.BoundedRecovery | worker/reaper.py:47-73 | while live workers beat, whatever crashes and however long handlers take: if the last pass is at most I old, the worker of a RUNNING row is registered and its heartbeat is no older than the heartbeat timeout plus I |
| Recovery.CrashIsRecovered | worker/db.py:204-251 | under the same assumption a job is no longer RUNNING under a crashed worker once the heartbeat timeout plus I has passed since the crash |
| Processing.ProcessingIsCovered | api/redis_client.py:87-146 | for each id the processing list never has more entries than workers, live or crashed, hold it un-acked, and exactly as many unless a requeue or a flush took some, although acknowledgement removes by value |
| Processing.EmptyAtRest | worker/worker.py:232-234 | the processing list is empty whenever every worker is idle |
| Processing.CrashedEntryStays | scheduler/scheduler.py:105-120 | the entry of a crashed worker is in the list in every later state of a run without requeue or flush |
| Termination.WorkIsBounded | worker/worker.py:115-126 | without new work, every productive step is paid for by a potential that only a crash replenishes, so their number is bounded in every run |
| Termination.ExecutionsAreBounded | worker/worker.py:211-224 | executions from any point on are at most the sum of max_attempts plus the crashes from then on, whatever reclaims and replays came before |
| Progress.UnfinishedCanProgress | scheduler/scheduler.py:136-150 | while a job is unfinished and a worker is alive, waiting alone leads to a state where a productive step is enabled |
| Progress.EveryRunCanFinish | worker/worker.py:156-234 | whatever the handlers return or raise, and whatever jitter is drawn, every loyal run can be continued until every row is SUCCESS, FAILED or DEAD_LETTER, with at most the sum of max_attempts executions |
| Drivers.EveryDriverFinishes | scheduler/scheduler.py:136-150 | over all runs, with any crashes: whoever makes round after round, each with some productive step or interrupted by a crash, has finished every job for good after a number of rounds bounded by the potential at the start plus eleven for each crash |
| Drivers.NextRound | worker/worker.py:115-126 | while a job is unfinished and a worker lives there is a next round for any handlers: work at once if any work is possible, otherwise wait until some is |
| Games.StrategyWins | worker/worker.py:115-126 | against an adversary that sees everything, may do anything a loyal run can do between two rounds and crash workers a given number of times, as long as one lives, the strategy wins: every game it has begun goes on to a state with every job final |
| Games.GamesEnd | worker/worker.py:115-126 | no such game lasts more rounds than the potential at its start plus eleven for each crash, plus one |
| Counterexamples.CrashAfterPopLosesJob | worker/db.py:234 | a reachable run in which a worker dies between popping and locking, and the job is lost |
| Counterexamples.CancelOfRunningJobLosesIt | api/main.py:263-269 | a reachable run in which the late queue removal of a cancel request drops the retry of a job it did not cancel |
| Counterexamples.ZombieReopensSuccess | worker/db.py:102-117 | a reachable run in which a worker that lost its lock turns SUCCESS into RETRYING |
| Counterexamples.ZombieOverwritesResult | worker/db.py:67-82 | a reachable run in which such a worker replaces the stored result of a SUCCESS job |
| Counterexamples.UrgentJobWaitsInDefault | api/redis_client.py:149-194 | a reachable state in which a PENDING job of priority 10 waits in the default tier |
| Ordering.PromotionIsExact | api/redis_client.py:149-158 | the script splits the scheduled set exactly at now, moves each due id once, in ascending (score, id) order, and touches nothing else |
| Ordering.ArrivalRefines | api/redis_client.py:42-66 | an enqueued job joins the end of its tier in one line of tickets |
| Ordering.ReturnRefines | api/redis_client.py:134-146 | a requeued job joins the front of the default tier |
| Ordering.PromotionRefines | api/redis_client.py:149-158 | promoted jobs join the default tier in order, behind everything that waits |
| Ordering.ReservationRefines | api/redis_client.py:98-106 | an uninterrupted reservation serves the oldest ticket of the highest waiting tier |
| Ordering.ForgetRefines | api/main.py:263-269 | a cancel request takes the tickets of its job out of the line and no others |
| Ordering.BrokerRefinesLine | api/redis_client.py:42-194 | over any history of arrivals, returns, schedulings, promotions, cancellations and reservations the broker has served what one line and one calendar would have served |
| Routing.StepRoutesExactly | api/redis_client.py:134-194 | in any run, a job that is only in the tier of its priority is so after the next step if and only if that step does not misroute it: its priority is not 0 and it is pushed by a replay, a requeue or a retry of the standalone reaper, or promoted by the script |
| Routing.OwnTierUntilMisrouted | api/redis_client.py:134-194 | along any run a job waits in its own tier only until a step misroutes it |
| Routing.HighAndLowAreOwn | api/redis_client.py:42-66 | in every reachable state the high list holds only jobs of positive priority and the low list only jobs of negative priority |
| Routing.DirectJobsKeepTheirTier | api/main.py:157-171 | a job submitted without a scheduled time waits only in its own tier for as long as it is neither replayed nor recovered by the standalone reaper |
| Daemons.PassIsExact | worker/reaper.py:47-94 | after a pass no row is stranded or due for retry; exactly the stranded rows (lock too old, or worker dead or silent) and the RETRYING rows whose retry time has come became PENDING without lock, and all other rows are as before |
| Daemons.Reaper.RunOnce | worker/reaper.py:47-94 | the tables end as one pass, every reclaimed id sits at the pop end of the default queue with one processing entry removed, every due retry sits at the push end, everything else is unchanged |
| Daemons.RemoveEachKeepsOrder | api/redis_client.py:134-146 | the processing entries of other jobs keep their relative order |
| Daemons.PassTrace | worker/reaper.py:47-94 | what the pass leaves behind is the end of a run of protocol steps with no push outstanding and the pass completed now |
| Scheduling.Scheduler.SyncFromDb | scheduler/scheduler.py:58-77 | exactly the PENDING rows with a schedule get an entry with their own time, every other entry stays as it was, and the number of these rows is returned |
| Scheduling.Scheduler.PromoteDueRetries | scheduler/scheduler.py:88-103 | exactly the due retries become PENDING and are enqueued by the priority of their row |
| Scheduling.Scheduler.RunReaper | scheduler/scheduler.py:105-120 | exactly the stranded rows become PENDING and are enqueued by priority; the processing list is not touched |
| Scheduling.EnqueuedLanes | scheduler/scheduler.py:91-95 | each tier gains exactly the ids of its priority, behind what waits, in row order |
| Scheduling.RoutedOnce | scheduler/scheduler.py:111-118 | every id is routed to exactly one tier, as often as it was returned |
| Scheduling.Scheduler.Turn | scheduler/scheduler.py:136-150 | one turn: due jobs and due retries are promoted, a reaper cycle runs iff five seconds have passed since the last one, in that case the tables end as a whole pass leaves them, and the lists are determined by the rows returned |
| Scheduling.TurnIsPass | scheduler/scheduler.py:136-150 | promoting retries before reclaiming leaves the tables that the reaper's order leaves |
| Scheduling.Scheduler.Start | scheduler/scheduler.py:122-158 | after the startup sync the loop takes every turn up to the signal and none after it, and tables, lists and the last reaper time are where those turns lead |
| Scheduling.ReaperKeepsPace | scheduler/scheduler.py:144-148 | if the loop comes round at least every gap seconds, the last reaper cycle is less than 5 seconds plus the gap old |
| SchedulerRuns.PromotionTrace | scheduler/scheduler.py:88-103 | retry promotion is a run of protocol steps |
| SchedulerRuns.ReaperTrace | scheduler/scheduler.py:105-120 | the reaper cycle is a run of protocol steps that counts as a completed pass |
| SchedulerRuns.SyncTrace | scheduler/scheduler.py:58-77 | the startup sync is a run of protocol steps |
| SchedulerRuns.SyncRestores | scheduler/scheduler.py:58-77 | from any reachable state, whatever Redis has lost, the sync leads to one in which every PENDING job with a schedule is in the scheduled set at its own time and none of them is lost |
| SchedulerRuns.RestoredJobsArePromoted | scheduler/scheduler.py:79-86 | and the next turn of the loop puts those that are due into the default queue |
| SchedulerRuns.PromoteTrace | scheduler/scheduler.py:79-86 | promotion of delayed jobs is one protocol step |
| SchedulerRuns.TurnTrace | scheduler/scheduler.py:136-150 | one turn of the loop is a run of protocol steps, and completes a pass when it reaps |
| SchedulerRuns.StartTrace | scheduler/scheduler.py:122-158 | the process from sync to signal is a run of protocol steps, after which the last pass is less than five seconds old |
| Workers.Worker.ProcessJob | worker/worker.py:156-234 | the net effect of one reservation on both stores and on the counter, for every handler outcome |
| Workers.Worker.RecordReturn | worker/worker.py:180-208 | result, counter, and for a recurring job with a valid rule the successor row and its scheduled entry |
| Workers.Worker.RecordRaise | worker/worker.py:209-231 | another try with its due time while attempts are left, else the dead letter; the job is counted either way |
| Workers.ConcludedRow | worker/worker.py:180-224 | every column of the row for every outcome: SUCCESS with its result iff the handler returned, RETRYING with its error iff it raised with attempts left, DEAD_LETTER with its error and a letter iff it raised on the last attempt; one more attempt and no lock in each case |
| Workers.ConcludedRetry | worker/worker.py:214-216 | the n-th failed attempt is retried after min(300, (1 + u/2) * b * 2^(n-1)) seconds, which is between min(300, b * 2^(n-1)) and min(300, 1.5 * b * 2^(n-1)) |
| Workers.SuccessorIsLeft | worker/worker.py:187-199 | a new row appears iff a recurring job returned and its rule has a next run, by the grammar or the cron library; it is the same job, PENDING and untried, scheduled for that time, with an entry in the scheduled set at that time |
| Workers.IntervalSuccessor | worker/recurrence.py:44-53 | with an interval rule that time is one interval after the end of the execution |
| Workers.ConcludedElsewhere | worker/worker.py:187-199 | no other row changes, and the only row that can appear is the successor of a recurring job that succeeded, PENDING and strictly later |
| WorkerRuns.ProcessTrace | worker/worker.py:156-234 | processing a job is a run of protocol steps that ends with the worker idle and skips no succession that can be computed |
| WorkerRuns.BlockTrace | api/redis_client.py:108-115 | the blocking reservation is two protocol steps that end where the non-blocking one ends |
| WorkerRuns.BeatTrace | worker/heartbeat.py:36-47 | a heartbeat between two turns is a protocol step |
| WorkerRuns.TakeTurnTrace | worker/worker.py:115-126 | one turn of the main loop is a run of protocol steps: heartbeat, reservation, processing |
| WorkerRuns.StartTrace | worker/worker.py:92-141 | the worker from registration to shutdown is a run of protocol steps that ends with it withdrawn and idle |
| Workers.Worker.ServeNext | worker/worker.py:115-126 | nothing waits iff nothing is taken; otherwise the job that the reservation order names is processed, and the processing list ends as it was |
| Workers.Worker.TakeTurn | worker/worker.py:115-126 | a turn is that, after the heartbeat that may fall into it |
| Workers.Worker.Start | worker/worker.py:92-141 | the loop takes every turn up to the signal and none after it, and both stores are where registration, those turns and withdrawal lead |
| Workers.ShiftLeavesNothing | worker/worker.py:236-247 | a worker that has left is registered DEAD, and no lock and no processing entry of its own stays behind |
| Workers.HeartbeatManager.Beat | worker/heartbeat.py:36-47 | a heartbeat refreshes the row only while running, so a stopped manager never revives it |
| Api.SubmitJob | api/main.py:150-171 | a request is Invalid iff its type is empty or max_attempts is outside 1..50, and BadRule iff otherwise a non-empty rule is neither a positive interval of the grammar nor answered by the cron library; else one new PENDING row exists and the job is either enqueued by priority or scheduled at its time; a refusal changes nothing |
| Api.EnabledIsAccepted | api/models.py:21 | every submission that the protocol allows, with a non-empty type, is accepted |
| Api.AcceptableExactly | api/main.py:150-156 | the protocol allows exactly the submissions within those bounds whose rule, if any, has a next run |
| Api.CancelJobById | api/main.py:255-283 | 404 iff there is no row; otherwise only a PENDING row becomes FAILED, with the error that it was cancelled by its user, and the waiting entries of the job are removed whatever its status |
| Ordering.CancelClearsQueues | api/main.py:263-269 | after the removals no list holds the job, and all other entries keep their order |
| Api.SplitCancelIsCancel | api/main.py:263-269 | the row update and the four removals, uninterrupted, amount to the single cancel step of the protocol |
| Api.SubmitTrace | api/main.py:157-171 | a submission is a run of protocol steps |
| Api.ReplayDeadLetterJob | api/main.py:326-341 | 404 iff no dead letter matches as letter or as job; otherwise the letter is gone, the job starts over (PENDING, no attempts, no error, result or retry time) and enters the default queue |
| Api.ReplayTrace | api/db.py:125-164 | a replay is a run of protocol steps |
| Traces.Continues | worker/worker.py:115-126 | code that follows the protocol from where a run has got to makes a longer run |
| Store.Database.FetchAndLockJob | worker/db.py:44-64 | a row is returned iff it was PENDING or RETRYING, then RUNNING under this worker with one more attempt |
| Store.Database.MoveJobToDeadLetter | worker/db.py:120-139 | the row and the new dead letter change together |
| Store.Database.MarkExpiredWorkersDead | worker/db.py:204-219 | exactly the silent ALIVE workers become DEAD and are returned, each once |
| Store.Database.ReclaimStaleJobs | worker/db.py:222-251 | exactly the stale rows become PENDING and are returned, each once |
| Store.Database.ReclaimDueRetryJobs | worker/db.py:268-289 | exactly the due RETRYING rows become PENDING and are returned, each once |
| Store.Database.ReplayDeadLetter | api/db.py:125-164 | found iff some letter matches; exactly that letter is deleted and its job starts over: PENDING, 0 attempts, and error, result, next_retry_at and lock NULL; all other rows are as before |
| Store.Database.CancelPendingJob | api/db.py:209-226 | the UPDATE after a SELECT that saw some status: only a row that is PENDING both times changes, and a row that has moved meanwhile is answered with the stale status |
| Store.Database.GetPendingScheduledJobs | worker/db.py:156-168 | exactly the rows with status PENDING and a schedule are returned, each once |
| Broker.Redis.PollTiers | api/redis_client.py:98-106 | the non-blocking pass takes the pop end of the first non-empty tier, and nothing iff all three are empty |
| Broker.Redis.BlockOnTiers | api/redis_client.py:108-115 | the blocking fallback does the same in two commands, between which the id is in no list |
| Broker.Redis.PriorityReserveJob | api/redis_client.py:87-117 | both halves, with nothing interleaved between them |
| Broker.Redis.RemoveProcessing | api/redis_client.py:120-131 | scanning from the head cuts out exactly the first occurrence |
| Broker.Redis.PromoteDueScheduledJobs | api/redis_client.py:177-194 | the loop of the script returns and moves the due ids in ascending order |
| Broker.Redis.RangeByScore | api/redis_client.py:149-158 | the due members in ascending (score, id) order |
| Broker.OneOrder | api/redis_client.py:149-158 | a set of scheduled members has only one ascending enumeration |
| Recurrence.ParseIntervalExact | worker/recurrence.py:17-41 | a rule is accepted with a duration iff some spelling of the grammar, written without parsing, denotes that positive duration |
| Recurrence.PrintedRuleReadsBack | worker/recurrence.py:23-41 | for all d, h, m, s not all zero the printed rule, zero components omitted, parses to 86400d + 3600h + 60m + s |
| Recurrence.NextRunExactly | worker/recurrence.py:77-90 | a rule has a next run iff it spells a positive interval, then that much later, or is no interval rule and the cron library answers it, then at its answer |
| Recurrence.NextRunIsLater | worker/recurrence.py:77-90 | the next run is strictly later than its base |
| Recurrence.IntervalRunsAreEvenlySpaced | worker/recurrence.py:77-90 | for every rule that parse_interval accepts with a duration: all n, whatever the cron library answers, n runs from t end at t + n * duration if and only if the rule spells the keyword in lower case; every other spelling fails when the cron library refuses it |
| Recurrence.UpperCaseIsRefused | worker/recurrence.py:86-90 | the input "@EVERY 5m": accepted by parse_interval as 300 seconds, refused by compute_next_run |
| Backoff.DelayBounds | worker/retry.py:15-25 | every delay lies between min(M, b*2^(n-1)) and min(M, 1.5*b*2^(n-1)), for every draw |
| Backoff.DelayExactly | worker/retry.py:15-25 | the delay is min(M, (1 + u/2) * b * 2^(n-1)) for draw u, and min(M, b * 2^(n-1)) without jitter |
| Backoff.DelayGrows | worker/retry.py:15-25 | whatever the draws, delays strictly increase until one reaches the cap, and stay there |
| Backoff.HistoryIsSorted | worker/worker.py:214-216 | the delays of a whole retry history are nondecreasing |
| Backoff.TotalDelayBounds | worker/retry.py:5-25 | the total over n attempts is at most min(1.5*b*(2^n - 1), n*M), and at least b*(2^n - 1) while uncapped |
| Backoff.UncappedSumIsGeometric | worker/retry.py:16 | the sum of the n uncapped delays is b*(2^n - 1) |

Single statements have a method each that is proved equal to its function in `Tables` or `Queues`: `CreateJob`,
`ScheduleNextOccurrence`, `MarkJobSuccess`, `MarkJobRetrying`, `UpsertWorkerHeartbeat`, `MarkDead` and `StatusOf` of
`Store.Database`; `PushLeft`, `PushRight`, `PopToProcessing`, `EnqueueJob`, `AckJob`, `RequeueJob`, `ScheduleJob`,
`BlockingPop` and `ForgetJob` of `Broker.Redis`; `Start` and `Stop` of `Workers.HeartbeatManager`; `RunOnce` of
`Scheduling.Scheduler`.

## Left out

- Interleaving inside a method: a method of a process class runs with nothing interleaved and reads the clock at the instants it is given; interleaving is the subject of the protocol, to which the methods are tied by trace lemmas.
- The background task of the heartbeat manager, the kill subscriber and signal handlers are inputs of the loops (`Visit.beat`, `Visit.signal`, `Instant.signal`); heartbeats fall between turns there, and anywhere in the protocol.
- A loop that runs until a signal is given the finite list of turns it takes, since every method here terminates.
- The reaper's own timer (worker/reaper.py:112-124) only repeats `Daemons.Reaper.RunOnce`.
- Exceptions raised by Postgres or Redis calls, which the source logs and swallows: the crash, drop and flush steps are the only failures.
- Cron expressions: croniter is not part of this model; it is an arbitrary function, assumed only to answer later than its base.
- Handlers and their registry: an arbitrary outcome per execution; an unknown handler counts as one that raised.
- The payload apart from its `_base_delay`, which is taken as a number.
- Float rounding, time zones and limits of timedelta: times are real numbers on one shared clock.
- Digits and white space outside ASCII in interval rules (of the letters, the long s is modelled, which matches s when case is ignored).
- Order of rows in a RETURNING clause, and which dead letter a query returns when several match: arbitrary in the model.
- UUIDs and worker names are numbers; ties in the scheduled set are broken by their order.
- mark_job_failed and atomic_reserve_job, which nothing on the live path calls.
- Listing and counting queries, events, websockets, the dashboard, connection pools, logging, benchmarks: they do not influence job state.
- Events sent after each change: best effort in the source, without effect on either store.
- Termination is stated without recurrence, submission and replay; a chain by itself never ends.
