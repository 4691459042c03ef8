/** A worker process: reserve, lock, run the handler, record the outcome, acknowledge. */
module Workers {
  import opened Domain
  import opened Tables
  import opened Queues
  import opened Recurrence
  import opened Backoff
  import opened Protocol
  import opened Store
  import opened Broker
  import Ordering

  /** What the handler did; looking up an unknown handler raises as well. */
  datatype Outcome = Returned(result: Option<string>) | Raised(error: string)

  /** One turn of the main loop, as the world outside the worker decides it. */
  datatype Visit = Visit(beat: bool, lockTime: Time, endTime: Time, outcome: Outcome, draw: real, signal: bool)

  // ---- The net effect of process_job ----

  function Successor(spec: Spec, now: Time, cron: Cron): Option<Time> {
    if Recurring(spec) && ComputeNextRun(spec.rule.value, now, cron).Ok?
    then Some(ComputeNextRun(spec.rule.value, now, cron).value) else None
  }

  /** The attempt succeeded: added names the next occurrence of a recurring job. */
  function AfterReturn(u: Tables, id: JobId, result: Option<string>, now: Time, added: JobId, cron: Cron): Tables
    requires id in u.jobs
  {
    var next := Successor(u.jobs[id].spec, now, cron);
    if next.Some? then InsertJob(MarkSuccess(u, id, result), added, u.jobs[id].spec, next) else MarkSuccess(u, id,
        result)
  }

  /** The attempt failed: added names the dead letter of the last attempt. */
  function AfterRaise(u: Tables, id: JobId, error: string, attempt: nat, draw: real, now: Time, added: LetterId): Tables
    requires id in u.jobs
  {
    var spec := u.jobs[id].spec;
    if attempt < spec.maxAttempts
    then MarkRetrying(u, id, error, NextRetryAt(attempt, spec.baseDelay, draw, now))
    else MoveToDeadLetter(u, id, error, attempt, added, now)
  }

  function Concluded(t: Tables, id: JobId, w: WorkerId, visit: Visit, added: nat, cron: Cron): Tables {
    if !Lockable(t, id) then t
    else
      var u := FetchAndLock(t, id, w, visit.lockTime);
      match visit.outcome
      case Returned(result) => AfterReturn(u, id, result, visit.endTime, added, cron)
      case Raised(error) => AfterRaise(u, id, error, t.jobs[id].attempts + 1, visit.draw, visit.endTime, added)
  }

  function WithSuccessor(q: Queues, spec: Spec, now: Time, added: JobId, cron: Cron): Queues {
    var next := Successor(spec, now, cron);
    if next.Some? then ZAdd(q, added, next.value) else q
  }

  function Scheduled(t: Tables, q: Queues, id: JobId, visit: Visit, added: nat, cron: Cron): Queues {
    if Lockable(t, id) && visit.outcome.Returned?
    then WithSuccessor(q, t.jobs[id].spec, visit.endTime, added, cron) else q
  }

  function Announced(t: Tables, q: Queues, id: JobId, visit: Visit, added: nat, cron: Cron): Queues {
    Ack(Scheduled(t, q, id, visit, added, cron), id)
  }

  /** The row of the attempt, case by case and column by column. */
  lemma ConcludedRow(t: Tables, id: JobId, w: WorkerId, visit: Visit, added: nat, cron: Cron)
    requires Lockable(t, id) && added !in t.jobs && added !in t.letters
    requires 0.0 <= visit.draw <= 1.0
    ensures var row, end := t.jobs[id], Concluded(t, id, w, visit, added, cron);
            var ended := row.(attempts := row.attempts + 1, lockedBy := None, lockedAt := None);
            && id in end.jobs
            && (end.jobs[id].status == Success <==> visit.outcome.Returned?)
            && (end.jobs[id].status == Retrying <==> visit.outcome.Raised? && row.attempts + 1 < row.spec.maxAttempts)
            && (end.jobs[id].status == DeadLetter <==>
                  visit.outcome.Raised? && row.attempts + 1 >= row.spec.maxAttempts)
            && (end.jobs[id].status == Success ==>
                  end.jobs[id] == ended.(status := Success, result := visit.outcome.result, error := None))
            && (end.jobs[id].status == Retrying ==>
                  && end.jobs[id].nextRetryAt.Some?
                  && end.jobs[id] == ended.(status := Retrying, error := Some(visit.outcome.error),
                                            nextRetryAt := end.jobs[id].nextRetryAt))
            && (end.jobs[id].status == DeadLetter ==>
                  end.jobs[id] == ended.(status := DeadLetter, error := Some(visit.outcome.error)))
            && (end.jobs[id].status == DeadLetter <==> added in end.letters)
            && (added in end.letters ==>
                  end.letters[added] == Letter(id, visit.outcome.error, row.attempts + 1, visit.endTime))
            && (forall l :: l != added ==> (l in end.letters <==> l in t.letters))
            && (forall l :: l != added && l in t.letters ==> end.letters[l] == t.letters[l])
  {}

  /** The n-th failed attempt is followed by the n-th delay: base doubled n - 1 times, up to half more, five minutes. */
  lemma ConcludedRetry(t: Tables, id: JobId, w: WorkerId, visit: Visit, added: nat, cron: Cron, d: real)
    requires Lockable(t, id) && visit.outcome.Raised? && t.jobs[id].attempts + 1 < t.jobs[id].spec.maxAttempts
    requires 0.0 <= visit.draw <= 1.0 && t.jobs[id].spec.baseDelay > 0.0
    requires d == t.jobs[id].spec.baseDelay * Pow2(t.jobs[id].attempts)
    ensures var end := Concluded(t, id, w, visit, added, cron);
            && id in end.jobs && end.jobs[id].nextRetryAt.Some?
            && end.jobs[id].nextRetryAt.value == visit.endTime + Min(300.0, (1.0 + visit.draw / 2.0) * d)
            && visit.endTime + Min(300.0, d) <= end.jobs[id].nextRetryAt.value <= visit.endTime + Min(300.0, 1.5 * d)
  {
    RetryIsDelayed(t, id, w, visit, added, cron);
    RetryTimes(t.jobs[id].attempts + 1, t.jobs[id].spec.baseDelay, visit.draw, d, visit.endTime);
  }

  lemma RetryTimes(attempt: nat, base: real, draw: real, d: real, now: Time)
    requires attempt >= 1 && base > 0.0 && 0.0 <= draw <= 1.0 && d == base * Pow2(attempt - 1)
    ensures var at := now + Delay(attempt, base, 300.0, Some(draw));
            at == now + Min(300.0, (1.0 + draw / 2.0) * d) && now + Min(300.0, d) <= at <= now + Min(300.0, 1.5 * d)
  {
    RetryBounds(attempt, base, draw, d);
  }

  lemma RetryIsDelayed(t: Tables, id: JobId, w: WorkerId, visit: Visit, added: nat, cron: Cron)
    requires Lockable(t, id) && visit.outcome.Raised? && t.jobs[id].attempts + 1 < t.jobs[id].spec.maxAttempts
    ensures var end, row := Concluded(t, id, w, visit, added, cron), t.jobs[id];
            && id in end.jobs
            && end.jobs[id].nextRetryAt
               == Some(visit.endTime + Delay(row.attempts + 1, row.spec.baseDelay, 300.0, Some(visit.draw)))
  {}

  lemma RetryBounds(attempt: nat, base: real, draw: real, d: real)
    requires attempt >= 1 && base > 0.0 && 0.0 <= draw <= 1.0 && d == base * Pow2(attempt - 1)
    ensures var delay := Delay(attempt, base, 300.0, Some(draw));
            delay == Min(300.0, (1.0 + draw / 2.0) * d) && Min(300.0, d) <= delay <= Min(300.0, 1.5 * d)
  {
    DelayExactly(attempt, base, 300.0, Some(draw), d);
    DelayBounds(attempt, base, 300.0, Some(draw));
    assert Uncapped(attempt, base) == d;
  }

  /**
   A successor row appears exactly when a recurring job returned and its rule has a next run; it is the same job,
   waiting untried for that time, and the scheduled set gains its entry and nothing else.
   */
  lemma SuccessorIsLeft(t: Tables, q: Queues, id: JobId, w: WorkerId, visit: Visit, added: nat, cron: Cron)
    requires Lockable(t, id) && added !in t.jobs
    ensures var spec, end := t.jobs[id].spec, Concluded(t, id, w, visit, added, cron);
            && (added in end.jobs <==>
                  && visit.outcome.Returned? && spec.rule.Some? && spec.rule.value != ""
                  && HasNextRun(spec.rule.value, visit.endTime, cron))
            && (added !in end.jobs ==> Announced(t, q, id, visit, added, cron).scheduled == q.scheduled)
            && (added in end.jobs ==>
                  var at := ComputeNextRun(spec.rule.value, visit.endTime, cron);
                  && at.Ok?
                  && end.jobs[added] == Job(spec, Some(at.value), Pending, 0, None, None, None, None, None)
                  && Announced(t, q, id, visit, added, cron).scheduled == q.scheduled[added := at.value])
  {
    if t.jobs[id].spec.rule.Some? {
      NextRunExactly(t.jobs[id].spec.rule.value, visit.endTime, cron);
    }
  }

  /** With an interval rule the next occurrence is one interval after the end of this one, whatever the cron library. */
  lemma IntervalSuccessor(t: Tables, q: Queues, id: JobId, w: WorkerId, visit: Visit, added: nat, cron: Cron,
                          total: nat)
    requires Lockable(t, id) && added !in t.jobs && visit.outcome.Returned?
    requires t.jobs[id].spec.rule.Some? && SpellsInterval(t.jobs[id].spec.rule.value, total)
    ensures var at, end := visit.endTime + total as real, Concluded(t, id, w, visit, added, cron);
            && added in end.jobs && end.jobs[added].status == Pending && end.jobs[added].spec == t.jobs[id].spec
            && end.jobs[added].scheduledFor == Some(at)
            && Announced(t, q, id, visit, added, cron).scheduled == q.scheduled[added := at]
  {
    var rule := t.jobs[id].spec.rule.value;
    NextRunExactly(rule, visit.endTime, cron);
    SuccessorIsLeft(t, q, id, w, visit, added, cron);
    assert rule != "" by {
      assert |Strip(rule)| >= 6;
    }
  }

  /** Nothing else changes, except that a recurring job that succeeds leaves one PENDING successor, strictly later. */
  lemma ConcludedElsewhere(t: Tables, id: JobId, w: WorkerId, visit: Visit, added: nat, cron: Cron, x: JobId)
    requires added !in t.jobs && CronMovesForward(cron) && x != id
    ensures var end := Concluded(t, id, w, visit, added, cron);
            && end.workers == t.workers
            && (x in t.jobs ==> x in end.jobs && end.jobs[x] == t.jobs[x])
            && (x in end.jobs && x !in t.jobs ==>
                  && x == added && Lockable(t, id) && visit.outcome.Returned? && Recurring(t.jobs[id].spec)
                  && end.jobs[x].scheduledFor.Some? && end.jobs[x].scheduledFor.value > visit.endTime
                  && end.jobs[x] == NewRow(t.jobs[id].spec, end.jobs[x].scheduledFor))
  {
    if Lockable(t, id) && Recurring(t.jobs[id].spec)
        && ComputeNextRun(t.jobs[id].spec.rule.value, visit.endTime, cron).Ok? {
      NextRunIsLater(t.jobs[id].spec.rule.value, visit.endTime, cron);
    }
  }

  // ---- The net effect of the main loop ----

  /** The two stores and the worker's counter. */
  datatype Shift = Shift(stores: Stores, processed: nat)

  function WithBeat(t: Tables, w: WorkerId, visit: Visit, processed: nat): Tables {
    if visit.beat then UpsertHeartbeat(t, w, processed, visit.lockTime) else t
  }

  /** A turn that takes a job: perhaps a heartbeat, then the job at the pop end; its processing entry comes and goes. */
  function ServedShift(s: Shift, w: WorkerId, tier: Tier, visit: Visit, added: nat, cron: Cron): Shift
    requires s.stores.lists.Lane(tier) != []
  {
    var t, q := WithBeat(s.stores.rows, w, visit, s.processed), s.stores.lists;
    var id := Last(q.Lane(tier));
    Shift(Stores(Concluded(t, id, w, visit, added, cron), Scheduled(t, Pop(q, tier), id, visit, added, cron)),
          s.processed + if Lockable(t, id) then 1 else 0)
  }

  /** One turn of the main loop: the job that the reservation order names, if any. */
  function Visited(s: Shift, w: WorkerId, visit: Visit, added: nat, cron: Cron): Shift {
    var tier := Ordering.Poll(s.stores.lists);
    if tier.Some? then ServedShift(s, w, tier.value, visit, added, cron)
    else s.(stores := s.stores.(rows := WithBeat(s.stores.rows, w, visit, s.processed)))
  }

  /** n turns lead from s to end; every row they add gets a name that no row has at the time. */
  ghost predicate VisitsLead(s: Shift, w: WorkerId, visits: seq<Visit>, n: nat, end: Shift, cron: Cron)
    requires n <= |visits|
    decreases n, 1
  {
    if n == 0 then end == s
    else exists mid, added :: VisitsLeadVia(s, w, visits, n, mid, added, end, cron)
  }

  ghost predicate VisitsLeadVia(s: Shift, w: WorkerId, visits: seq<Visit>, n: nat, mid: Shift, added: nat,
                                end: Shift, cron: Cron)
    requires 0 < n <= |visits|
    decreases n, 0
  {
    && VisitsLead(s, w, visits, n - 1, mid, cron)
    && Unused(mid.stores.rows, added)
    && end == Visited(mid, w, visits[n - 1], added, cron)
  }

  lemma OneMoreVisit(s: Shift, w: WorkerId, visits: seq<Visit>, n: nat, mid: Shift, added: nat, end: Shift, cron: Cron)
    requires n < |visits| && VisitsLead(s, w, visits, n, mid, cron)
    requires Unused(mid.stores.rows, added) && end == Visited(mid, w, visits[n], added, cron)
    ensures VisitsLead(s, w, visits, n + 1, end, cron)
  {
    assert VisitsLeadVia(s, w, visits, n + 1, mid, added, end, cron);
  }

  predicate NoSignal(visits: seq<Visit>, n: nat)
    requires n <= |visits|
  {
    n == 0 || (NoSignal(visits, n - 1) && !visits[n - 1].signal)
  }

  predicate Unused(t: Tables, name: nat) {
    name !in t.jobs && name !in t.letters
  }

  /** What the worker's n turns leave in the stores: it has registered, taken its turns, and withdrawn. */
  ghost predicate Worked(before: Stores, w: WorkerId, began: Time, visits: seq<Visit>, n: nat, after: Stores,
                         cron: Cron)
    requires n <= |visits|
  {
    exists end :: VisitsLead(Opened(before, w, began), w, visits, n, end, cron) && after == Closed(end, w)
  }

  function Closed(s: Shift, w: WorkerId): Stores {
    s.stores.(rows := MarkWorkerDead(s.stores.rows, w))
  }

  function Opened(stores: Stores, w: WorkerId, began: Time): Shift {
    Shift(stores.(rows := UpsertHeartbeat(stores.rows, w, 0, began)), 0)
  }

  predicate HoldsNothing(t: Tables, w: WorkerId) {
    forall x :: x in t.jobs ==> t.jobs[x].lockedBy != Some(w)
  }

  lemma ConcludedReleases(t: Tables, id: JobId, w: WorkerId, visit: Visit, added: nat, cron: Cron)
    requires HoldsNothing(t, w)
    ensures var end := Concluded(t, id, w, visit, added, cron);
            HoldsNothing(end, w) && end.workers == t.workers && t.jobs.Keys <= end.jobs.Keys
  {}

  /** The entry that the reservation put in front of the processing list is the one the acknowledgement takes. */
  lemma AckTakesFirst(t: Tables, q: Queues, tier: Tier, visit: Visit, added: nat, cron: Cron)
    requires q.Lane(tier) != []
    ensures var id := Last(q.Lane(tier));
            Announced(t, Reserve(q, tier), id, visit, added, cron) == Scheduled(t, Pop(q, tier), id, visit, added, cron)
  {
    var id := Last(q.Lane(tier));
    var r := Scheduled(t, Pop(q, tier), id, visit, added, cron);
    assert Scheduled(t, Reserve(q, tier), id, visit, added, cron) == Stash(r, id);
    assert ([id] + r.processing)[1..] == r.processing;
  }

  lemma PopKeepsProcessing(q: Queues, tier: Tier)
    requires q.Lane(tier) != []
    ensures Pop(q, tier).processing == q.processing
  {}

  lemma VisitLeavesNothing(s: Shift, w: WorkerId, visit: Visit, added: nat, cron: Cron)
    requires HoldsNothing(s.stores.rows, w) && w in s.stores.rows.workers
    ensures var u := Visited(s, w, visit, added, cron);
            && HoldsNothing(u.stores.rows, w) && w in u.stores.rows.workers
            && u.stores.lists.processing == s.stores.lists.processing
                && s.stores.rows.jobs.Keys <= u.stores.rows.jobs.Keys
  {
    var t, q, tier := WithBeat(s.stores.rows, w, visit, s.processed), s.stores.lists, Ordering.Poll(s.stores.lists);
    if tier.Some? {
      ConcludedReleases(t, Last(q.Lane(tier.value)), w, visit, added, cron);
      PopKeepsProcessing(q, tier.value);
    }
  }

  lemma {:induction false} VisitsLeaveNothing(s: Shift, w: WorkerId, visits: seq<Visit>, n: nat, end: Shift, cron: Cron)
    requires n <= |visits| && VisitsLead(s, w, visits, n, end, cron)
    requires HoldsNothing(s.stores.rows, w) && w in s.stores.rows.workers
    ensures HoldsNothing(end.stores.rows, w) && w in end.stores.rows.workers
    ensures end.stores.lists.processing == s.stores.lists.processing
            && s.stores.rows.jobs.Keys <= end.stores.rows.jobs.Keys
  {
    if n > 0 {
      var mid, added :| VisitsLeadVia(s, w, visits, n, mid, added, end, cron);
      VisitsLeaveNothing(s, w, visits, n - 1, mid, cron);
      VisitLeavesNothing(mid, w, visits[n - 1], added, cron);
    }
  }

  /** A worker that has left is registered as dead, and no lock and no processing entry of its own stays behind. */
  lemma ShiftLeavesNothing(before: Stores, w: WorkerId, began: Time, visits: seq<Visit>, n: nat, after: Stores,
                           cron: Cron)
    requires n <= |visits| && HoldsNothing(before.rows, w) && Worked(before, w, began, visits, n, after, cron)
    ensures w in after.rows.workers && after.rows.workers[w].status == Dead && HoldsNothing(after.rows, w)
    ensures after.lists.processing == before.lists.processing && before.rows.jobs.Keys <= after.rows.jobs.Keys
  {
    var end :| VisitsLead(Opened(before, w, began), w, visits, n, end, cron) && after == Closed(end, w);
    VisitsLeaveNothing(Opened(before, w, began), w, visits, n, end, cron);
  }

  // ---- The processes ----

  class HeartbeatManager {
    const workerId: WorkerId
    var running: bool

    constructor (w: WorkerId)
      ensures workerId == w && !running
    {
      workerId, running := w, false;
    }

    method Start(db: Database, jobsProcessed: nat, now: Time)
      modifies this, db
      ensures running && db.Rows() == UpsertHeartbeat(old(db.Rows()), workerId, jobsProcessed, now)
    {
      running := true;
      db.UpsertWorkerHeartbeat(workerId, jobsProcessed, now);
    }

    /** What the loop does when its sleep ends: a manager that was stopped meanwhile never revives the row. */
    method Beat(db: Database, jobsProcessed: nat, now: Time)
      modifies db
      ensures db.Rows() == if running then UpsertHeartbeat(old(db.Rows()), workerId, jobsProcessed,
          now) else old(db.Rows())
    {
      if running {
        db.UpsertWorkerHeartbeat(workerId, jobsProcessed, now);
      }
    }

    method Stop(db: Database)
      modifies this, db
      ensures !running && db.Rows() == MarkWorkerDead(old(db.Rows()), workerId)
    {
      running := false;
      db.MarkDead(workerId);
    }
  }

  class Worker {
    const workerId: WorkerId
    const heartbeat: HeartbeatManager
    var running: bool
    var jobsProcessed: nat

    constructor (w: WorkerId)
      ensures workerId == w == heartbeat.workerId && fresh(heartbeat)
      ensures !running && jobsProcessed == 0
    {
      workerId := w;
      heartbeat := new HeartbeatManager(w);
      running, jobsProcessed := false, 0;
    }

    /** The success branch: record the result, count the job, and leave the next occurrence of a recurring one. */
    method RecordReturn(db: Database, redis: Redis, id: JobId, spec: Spec, result: Option<string>, now: Time,
                        cron: Cron)
      returns (ghost added: JobId)
      requires id in db.jobs && db.jobs[id].spec == spec
      modifies this`jobsProcessed, db, redis
      ensures added !in old(db.jobs) && added !in old(db.letters)
      ensures db.Rows() == AfterReturn(old(db.Rows()), id, result, now, added, cron)
      ensures redis.Entries() == WithSuccessor(old(redis.Entries()), spec, now, added, cron)
      ensures jobsProcessed == old(jobsProcessed) + 1
    {
      added := db.GenerateId();
      db.MarkJobSuccess(id, result);
      jobsProcessed := jobsProcessed + 1;
      if spec.rule.Some? && spec.rule.value != "" {
        var next := ComputeNextRun(spec.rule.value, now, cron);
        if next.Ok? {
          var successor := db.ScheduleNextOccurrence(spec, next.value);
          redis.ScheduleJob(successor, next.value);
          added := successor;
        }
      }
    }

    /** The failure branch: another try while attempts are left, else the dead letter table. */
    method RecordRaise(db: Database, id: JobId, job: Job, error: string, draw: real, now: Time)
      returns (ghost added: LetterId)
      requires id in db.jobs && db.jobs[id].spec == job.spec
      modifies this`jobsProcessed, db
      ensures added !in old(db.jobs) && added !in old(db.letters)
      ensures db.Rows() == AfterRaise(old(db.Rows()), id, error, job.attempts, draw, now, added)
      ensures jobsProcessed == old(jobsProcessed) + 1
    {
      if job.attempts < job.spec.maxAttempts {
        added := db.GenerateId();
        db.MarkJobRetrying(id, error, NextRetryAt(job.attempts, job.spec.baseDelay, draw, now));
      } else {
        added := db.MoveJobToDeadLetter(id, error, job.attempts, now);
      }
      jobsProcessed := jobsProcessed + 1;
    }

    /** Lock the row, run the handler, record the outcome. */
    method Attempt(db: Database, redis: Redis, id: JobId, visit: Visit, cron: Cron) returns (ghost added: nat)
      modifies this`jobsProcessed, db, redis
      ensures Unused(old(db.Rows()), added)
      ensures db.Rows() == Concluded(old(db.Rows()), id, workerId, visit, added, cron)
      ensures redis.Entries() == Scheduled(old(db.Rows()), old(redis.Entries()), id, visit, added, cron)
      ensures jobsProcessed == old(jobsProcessed) + (if Lockable(old(db.Rows()), id) then 1 else 0)
    {
      var job := db.FetchAndLockJob(id, workerId, visit.lockTime);
      if job.None? {
        added := db.GenerateId();
        return;
      }
      match visit.outcome {
        case Returned(result) =>
          added := RecordReturn(db, redis, id, job.value.spec, result, visit.endTime, cron);
        case Raised(error) =>
          added := RecordRaise(db, id, job.value, error, visit.draw, visit.endTime);
      }
    }

    /** Whether or not the row could be locked, the entry leaves the processing list at the end. */
    method ProcessJob(db: Database, redis: Redis, id: JobId, visit: Visit, cron: Cron) returns (ghost added: nat)
      modifies this`jobsProcessed, db, redis
      ensures Unused(old(db.Rows()), added)
      ensures db.Rows() == Concluded(old(db.Rows()), id, workerId, visit, added, cron)
      ensures redis.Entries() == Announced(old(db.Rows()), old(redis.Entries()), id, visit, added, cron)
      ensures jobsProcessed == old(jobsProcessed) + (if Lockable(old(db.Rows()), id) then 1 else 0)
    {
      added := Attempt(db, redis, id, visit, cron);
      redis.AckJob(id);
    }

    /** Reserve one job, if any waits, and process it. */
    method ServeNext(db: Database, redis: Redis, visit: Visit, cron: Cron) returns (ghost added: nat)
      modifies this`jobsProcessed, db, redis
      ensures Unused(old(db.Rows()), added)
      ensures var tier := Ordering.Poll(old(redis.Entries()));
              if tier.None?
              then db.Rows() == old(db.Rows()) && redis.Entries() == old(redis.Entries())
                  && jobsProcessed == old(jobsProcessed)
              else
                var lane := old(redis.Entries()).Lane(tier.value);
                && lane != []
                && db.Rows() == Concluded(old(db.Rows()), Last(lane), workerId, visit, added, cron)
                && redis.Entries()
                   == Scheduled(old(db.Rows()), Pop(old(redis.Entries()), tier.value), Last(lane), visit, added, cron)
                && jobsProcessed == old(jobsProcessed) + if Lockable(old(db.Rows()), Last(lane)) then 1 else 0
    {
      var reserved := redis.PriorityReserveJob();
      if reserved.Some? {
        added := ProcessJob(db, redis, reserved.value, visit, cron);
        AckTakesFirst(old(db.Rows()), old(redis.Entries()), Ordering.Poll(old(redis.Entries())).value, visit, added,
            cron);
      } else {
        added := db.GenerateId();
      }
    }

    /** One turn of the main loop, with the heartbeat that may fall into it. */
    method TakeTurn(db: Database, redis: Redis, visit: Visit, cron: Cron) returns (ghost added: nat)
      requires heartbeat.workerId == workerId && heartbeat.running
      modifies this`jobsProcessed, db, redis
      ensures Unused(old(db.Rows()), added)
      ensures Shift(Stores(db.Rows(), redis.Entries()), jobsProcessed)
           == Visited(old(Shift(Stores(db.Rows(), redis.Entries()), jobsProcessed)), workerId, visit, added, cron)
    {
      if visit.beat {
        heartbeat.Beat(db, jobsProcessed, visit.lockTime);
      }
      added := ServeNext(db, redis, visit, cron);
    }

    /**
     The main loop, from registration to shutdown. visits lists what each turn meets: whether the heartbeat task
     got its turn, the handler's outcome if a job was reserved, and whether the shutdown signal or the kill
     command has arrived by the end of it.
     */
    method Start(db: Database, redis: Redis, began: Time, visits: seq<Visit>, cron: Cron) returns (turns: nat)
      requires heartbeat.workerId == workerId && jobsProcessed == 0
      modifies this, heartbeat, db, redis
      ensures turns <= |visits| && !heartbeat.running
      // it takes every turn up to the signal and none after it
      ensures turns > 0 ==> NoSignal(visits, turns - 1)
      ensures turns < |visits| ==> turns > 0 && visits[turns - 1].signal
      ensures Worked(old(Stores(db.Rows(), redis.Entries())), workerId, began, visits, turns, Stores(db.Rows(),
          redis.Entries()), cron)
    {
      ghost var first := Opened(Stores(db.Rows(), redis.Entries()), workerId, began);
      running := true;
      heartbeat.Start(db, jobsProcessed, began);
      turns := 0;
      while running && turns < |visits|
        invariant turns <= |visits| && heartbeat.running
        invariant if running then NoSignal(visits, turns)
                  else turns > 0 && NoSignal(visits, turns - 1) && visits[turns - 1].signal
        invariant VisitsLead(first, workerId, visits, turns, Shift(Stores(db.Rows(), redis.Entries()),
            jobsProcessed), cron)
        decreases |visits| - turns
      {
        ghost var mid := Shift(Stores(db.Rows(), redis.Entries()), jobsProcessed);
        ghost var added := TakeTurn(db, redis, visits[turns], cron);
        OneMoreVisit(first, workerId, visits, turns, mid, added, Shift(Stores(db.Rows(), redis.Entries()),
            jobsProcessed), cron);
        if visits[turns].signal {
          running := false;
        }
        turns := turns + 1;
      }
      ghost var end := Shift(Stores(db.Rows(), redis.Entries()), jobsProcessed);
      heartbeat.Stop(db);
      assert Stores(db.Rows(), redis.Entries()) == Closed(end, workerId);
    }
  }
}
