/** The vocabulary of the system: job rows, worker rows, dead letters, and the timing settings. */
module Domain {

  datatype Option<+T> = None | Some(value: T)

  // UUIDs and worker names are opaque keys; only their identity and the order Redis
  // uses to break ties between equal scores matter.
  type JobId = nat
  type WorkerId = nat
  type LetterId = nat

  /** Seconds on the one clock shared by Postgres, Redis and every process. */
  type Time = real

  datatype Status = Pending | Running | Success | Failed | Retrying | DeadLetter

  predicate Final(status: Status) {
    status == Success || status == Failed || status == DeadLetter
  }

  /** The columns that are written once, when the row is inserted. */
  datatype Spec = Spec(
    kind: string,
    payload: string,
    baseDelay: real,      // payload["_base_delay"], 1.0 when absent
    priority: int,
    maxAttempts: nat,
    rule: Option<string>)

  /** The empty rule is falsy, so it is never validated and never makes a job recur. */
  predicate Recurring(spec: Spec) {
    spec.rule.Some? && spec.rule.value != ""
  }

  datatype Job = Job(
    spec: Spec,
    scheduledFor: Option<Time>,
    status: Status,
    attempts: nat,
    nextRetryAt: Option<Time>,
    result: Option<string>,
    error: Option<string>,
    lockedBy: Option<WorkerId>,
    lockedAt: Option<Time>)

  datatype Liveness = Alive | Dead

  datatype WorkerRow = WorkerRow(
    status: Liveness,
    lastHeartbeat: Time,
    jobsProcessed: nat,
    startedAt: Time)

  datatype Letter = Letter(jobId: JobId, finalError: string, attemptsMade: nat, movedAt: Time)

  /** The cron library: the next instant after a base, or a refusal of the expression. */
  type Cron = (string, Time) -> Option<Time>

  /** Timeouts of the reaper, and the two promises a deployment makes about its own timing. */
  datatype Config = Config(
    heartbeatTimeout: Time,
    visibilityTimeout: Time,
    beat: Time,           // live workers refresh their row at least this often
    passInterval: Time,   // a reaper pass completes at least this often
    cron: Cron)
}
