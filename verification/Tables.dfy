/** The Postgres side: each function is the effect of one committed transaction on the three tables. */
module Tables {
  import opened Domain

  datatype Tables = Tables(
    jobs: map<JobId, Job>,
    workers: map<WorkerId, WorkerRow>,
    letters: map<LetterId, Letter>)

  const NO_ROWS := Tables(map[], map[], map[])

  function NewRow(spec: Spec, scheduledFor: Option<Time>): Job {
    Job(spec, scheduledFor, Pending, 0, None, None, None, None, None)
  }

  function InsertJob(t: Tables, id: JobId, spec: Spec, scheduledFor: Option<Time>): Tables {
    t.(jobs := t.jobs[id := NewRow(spec, scheduledFor)])
  }

  // ---- Locking and outcomes (guarded by the id alone, as in the source) ----

  predicate Lockable(t: Tables, id: JobId) {
    id in t.jobs && (t.jobs[id].status == Pending || t.jobs[id].status == Retrying)
  }

  function Locked(row: Job, w: WorkerId, now: Time): Job {
    row.(status := Running, lockedBy := Some(w), lockedAt := Some(now), attempts := row.attempts + 1)
  }

  function FetchAndLock(t: Tables, id: JobId, w: WorkerId, now: Time): Tables {
    if Lockable(t, id) then t.(jobs := t.jobs[id := Locked(t.jobs[id], w, now)]) else t
  }

  /** Every statement that ends an attempt or a lock also clears the two lock columns. */
  function Released(row: Job, status: Status): Job {
    row.(status := status, lockedBy := None, lockedAt := None)
  }

  function MarkSuccess(t: Tables, id: JobId, result: Option<string>): Tables {
    if id in t.jobs
    then t.(jobs := t.jobs[id := Released(t.jobs[id], Success).(result := result, error := None)])
    else t
  }

  function MarkRetrying(t: Tables, id: JobId, error: string, nextRetryAt: Time): Tables {
    if id in t.jobs
    then t.(jobs := t.jobs[id := Released(t.jobs[id], Retrying).(error := Some(error),
        nextRetryAt := Some(nextRetryAt))])
    else t
  }

  function MoveToDeadLetter(t: Tables, id: JobId, error: string, attemptsMade: nat, letter: LetterId,
                            now: Time): Tables {
    if id in t.jobs
    then t.(jobs := t.jobs[id := Released(t.jobs[id], DeadLetter).(error := Some(error))],
            letters := t.letters[letter := Letter(id, error, attemptsMade, now)])
    else t
  }

  // ---- Liveness ----

  function UpsertHeartbeat(t: Tables, w: WorkerId, jobsProcessed: nat, now: Time): Tables {
    var started := if w in t.workers then t.workers[w].startedAt else now;
    t.(workers := t.workers[w := WorkerRow(Alive, now, jobsProcessed, started)])
  }

  function MarkWorkerDead(t: Tables, w: WorkerId): Tables {
    if w in t.workers then t.(workers := t.workers[w := t.workers[w].(status := Dead)]) else t
  }

  predicate Expired(row: WorkerRow, timeout: Time, now: Time) {
    row.status == Alive && row.lastHeartbeat < now - timeout
  }

  function ExpireWorkers(t: Tables, timeout: Time, now: Time): Tables {
    t.(workers := map w | w in t.workers ::
      if Expired(t.workers[w], timeout, now) then t.workers[w].(status := Dead) else t.workers[w])
  }

  // ---- Recovery ----

  predicate Gone(t: Tables, w: WorkerId, timeout: Time, now: Time) {
    w in t.workers && (t.workers[w].status == Dead || t.workers[w].lastHeartbeat < now - timeout)
  }

  predicate Stale(t: Tables, id: JobId, timeout: Time, now: Time) {
    && id in t.jobs
    && var row := t.jobs[id];
       && row.status == Running
       && ((row.lockedAt.Some? && row.lockedAt.value < now - timeout)
           || (row.lockedBy.Some? && Gone(t, row.lockedBy.value, timeout, now)))
  }

  function StaleJobs(t: Tables, timeout: Time, now: Time): set<JobId> {
    set id | id in t.jobs && Stale(t, id, timeout, now)
  }

  function ReclaimStale(t: Tables, timeout: Time, now: Time): Tables {
    t.(jobs := map id | id in t.jobs ::
      if Stale(t, id, timeout, now) then Released(t.jobs[id], Pending) else t.jobs[id])
  }

  predicate RetryDue(t: Tables, id: JobId, now: Time) {
    && id in t.jobs
    && t.jobs[id].status == Retrying
    && t.jobs[id].nextRetryAt.Some?
    && t.jobs[id].nextRetryAt.value <= now
  }

  function DueRetries(t: Tables, now: Time): set<JobId> {
    set id | id in t.jobs && RetryDue(t, id, now)
  }

  function ReclaimDueRetries(t: Tables, now: Time): Tables {
    t.(jobs := map id | id in t.jobs ::
      if RetryDue(t, id, now) then Released(t.jobs[id], Pending) else t.jobs[id])
  }

  predicate AwaitsSchedule(t: Tables, id: JobId) {
    id in t.jobs && t.jobs[id].status == Pending && t.jobs[id].scheduledFor.Some?
  }

  function PendingScheduled(t: Tables): set<JobId> {
    set id | id in t.jobs && AwaitsSchedule(t, id)
  }

  // ---- Client requests ----

  const CANCELLED := "Job cancelled by user"

  function CancelJob(t: Tables, id: JobId): Tables {
    if id in t.jobs && t.jobs[id].status == Pending
    then t.(jobs := t.jobs[id := Released(t.jobs[id], Failed).(error := Some(CANCELLED))])
    else t
  }

  /** The reset guards on the id alone: whatever status the row has, it becomes PENDING. */
  function ReplayLetter(t: Tables, letter: LetterId): Tables
    requires letter in t.letters
  {
    var id := t.letters[letter].jobId;
    var kept := t.letters - {letter};
    if id in t.jobs
    then t.(letters := kept,
            jobs := t.jobs[id := Released(t.jobs[id], Pending).(attempts := 0, error := None, result := None,
                nextRetryAt := None)])
    else t.(letters := kept)
  }
}
