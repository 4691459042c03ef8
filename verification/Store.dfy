/** The Postgres statements as they change the tables in place. */
module Store {
  import opened Domain
  import opened Tables

  /** The rows of a RETURNING clause: each id of the set once, in no particular order. */
  ghost predicate Lists(ids: seq<nat>, s: set<nat>) {
    && (forall x :: x in ids <==> x in s)
    && (forall i, j :: 0 <= i < j < |ids| ==> ids[i] != ids[j])
  }

  lemma ListsOneMore(ids: seq<nat>, s: set<nat>, x: nat)
    requires Lists(ids, s) && x !in s
    ensures Lists(ids + [x], s + {x})
  {}

  lemma {:induction false} ListedOnce(ids: seq<nat>, s: set<nat>)
    requires Lists(ids, s)
    ensures multiset(ids) == multiset(s)
  {
    if ids == [] {
      assert s == {};
    } else {
      var rest := ids[1..];
      assert ids == [ids[0]] + rest;
      assert forall x :: x in rest <==> x in s - {ids[0]} by {
        forall x ensures x in rest <==> x in s - {ids[0]} {
          if x in rest {
            var i :| 0 <= i < |rest| && rest[i] == x;
            assert ids[i + 1] == x;
          }
        }
      }
      assert forall i, j :: 0 <= i < j < |rest| ==> rest[i] == ids[i + 1] && rest[j] == ids[j + 1];
      ListedOnce(rest, s - {ids[0]});
    }
  }

  /** The same job, waiting, untried, with nothing to show for its earlier attempts. */
  predicate StartsOver(before: Job, after: Job) {
    && after.spec == before.spec && after.scheduledFor == before.scheduledFor
    && after.status == Pending && after.attempts == 0
    && after.error == None && after.result == None && after.nextRetryAt == None
    && after.lockedBy == None && after.lockedAt == None
  }

  datatype Replayed = Replayed(letter: LetterId, job: JobId)

  class Database {
    var jobs: map<JobId, Job>
    var workers: map<WorkerId, WorkerRow>
    var letters: map<LetterId, Letter>

    function Rows(): Tables
      reads this
    {
      Tables(jobs, workers, letters)
    }

    constructor ()
      ensures Rows() == NO_ROWS
    {
      jobs, workers, letters := map[], map[], map[];
    }

    // ---- Insertion ----

    /** Stands for gen_random_uuid: some identifier that no row carries yet. */
    method GenerateId() returns (id: nat)
      ensures id !in jobs && id !in letters
    {
      id := 0;
      var taken := jobs.Keys + letters.Keys;
      var todo := taken;
      while todo != {}
        invariant todo <= taken
        invariant forall x :: x in taken && x !in todo ==> x < id
        decreases todo
      {
        var x :| x in todo;
        if x >= id {
          id := x + 1;
        }
        todo := todo - {x};
      }
    }

    method CreateJob(spec: Spec, scheduledFor: Option<Time>) returns (id: JobId)
      modifies this
      ensures id !in old(jobs) && id !in old(letters) && Rows() == InsertJob(old(Rows()), id, spec, scheduledFor)
    {
      id := GenerateId();
      jobs := jobs[id := NewRow(spec, scheduledFor)];
    }

    method ScheduleNextOccurrence(spec: Spec, scheduledFor: Time) returns (id: JobId)
      modifies this
      ensures id !in old(jobs) && id !in old(letters) && Rows() == InsertJob(old(Rows()), id, spec, Some(scheduledFor))
    {
      id := GenerateId();
      jobs := jobs[id := NewRow(spec, Some(scheduledFor))];
    }

    // ---- Lock and outcomes ----

    method FetchAndLockJob(id: JobId, w: WorkerId, now: Time) returns (row: Option<Job>)
      modifies this
      ensures Rows() == FetchAndLock(old(Rows()), id, w, now)
      ensures row.Some? <==> Lockable(old(Rows()), id)
      ensures row.Some? ==> id in jobs && row.value == jobs[id] && row.value.attempts == old(jobs)[id].attempts + 1
    {
      row := None;
      if id in jobs {
        var found := jobs[id];
        if found.status == Pending || found.status == Retrying {
          found := found.(status := Running, lockedBy := Some(w), lockedAt := Some(now),
              attempts := found.attempts + 1);
          jobs := jobs[id := found];
          row := Some(found);
        }
      }
    }

    method MarkJobSuccess(id: JobId, result: Option<string>)
      modifies this
      ensures Rows() == MarkSuccess(old(Rows()), id, result)
    {
      if id in jobs {
        jobs := jobs[id := jobs[id].(status := Success, result := result, error := None, lockedBy := None,
            lockedAt := None)];
      }
    }

    method MarkJobRetrying(id: JobId, error: string, nextRetryAt: Time)
      modifies this
      ensures Rows() == MarkRetrying(old(Rows()), id, error, nextRetryAt)
    {
      if id in jobs {
        jobs := jobs[id := jobs[id].(status := Retrying, error := Some(error), nextRetryAt := Some(nextRetryAt),
                                     lockedBy := None, lockedAt := None)];
      }
    }

    method MoveJobToDeadLetter(id: JobId, error: string, attemptsMade: nat, now: Time) returns (letter: LetterId)
      modifies this
      ensures letter !in old(letters) && letter !in old(jobs)
              && Rows() == MoveToDeadLetter(old(Rows()), id, error, attemptsMade, letter, now)
    {
      letter := GenerateId();
      // The insert refers to jobs(id): without the row the whole transaction fails.
      if id in jobs {
        jobs := jobs[id := jobs[id].(status := DeadLetter, error := Some(error), lockedBy := None, lockedAt := None)];
        letters := letters[letter := Letter(id, error, attemptsMade, now)];
      }
    }

    // ---- Liveness ----

    method UpsertWorkerHeartbeat(w: WorkerId, jobsProcessed: nat, now: Time)
      modifies this
      ensures Rows() == UpsertHeartbeat(old(Rows()), w, jobsProcessed, now)
    {
      if w in workers {
        workers := workers[w := workers[w].(status := Alive, lastHeartbeat := now, jobsProcessed := jobsProcessed)];
      } else {
        workers := workers[w := WorkerRow(Alive, now, jobsProcessed, now)];
      }
    }

    method MarkDead(w: WorkerId)
      modifies this
      ensures Rows() == MarkWorkerDead(old(Rows()), w)
    {
      if w in workers {
        workers := workers[w := workers[w].(status := Dead)];
      }
    }

    method MarkExpiredWorkersDead(timeout: Time, now: Time) returns (dead: seq<WorkerId>)
      modifies this
      ensures Rows() == ExpireWorkers(old(Rows()), timeout, now)
      ensures Lists(dead, set w | w in old(workers) && Expired(old(workers)[w], timeout, now))
    {
      dead := [];
      var todo := workers.Keys;
      ghost var picked: set<WorkerId> := {};
      while todo != {}
        invariant todo <= workers.Keys == old(workers).Keys && jobs == old(jobs) && letters == old(letters)
        invariant forall w :: w in workers ==>
          workers[w] == if w !in todo && Expired(old(workers)[w], timeout, now)
                        then old(workers)[w].(status := Dead) else old(workers)[w]
        invariant Lists(dead, picked)
        invariant forall w :: w in picked <==> w in old(workers) && w !in todo && Expired(old(workers)[w], timeout, now)
        decreases todo
      {
        var w :| w in todo;
        if workers[w].status == Alive && workers[w].lastHeartbeat < now - timeout {
          workers := workers[w := workers[w].(status := Dead)];
          ListsOneMore(dead, picked, w);
          dead, picked := dead + [w], picked + {w};
        }
        todo := todo - {w};
      }
      assert picked == set w | w in old(workers) && Expired(old(workers)[w], timeout, now);
    }

    // ---- Recovery ----

    method ReclaimStaleJobs(timeout: Time, now: Time) returns (rows: seq<JobId>)
      modifies this
      ensures Rows() == ReclaimStale(old(Rows()), timeout, now)
      ensures Lists(rows, StaleJobs(old(Rows()), timeout, now))
    {
      rows := [];
      var todo := jobs.Keys;
      ghost var picked: set<JobId> := {};
      ghost var before := Rows();
      while todo != {}
        invariant todo <= jobs.Keys == before.jobs.Keys && workers == before.workers && letters == before.letters
        invariant forall id :: id in jobs ==>
          jobs[id] == if id !in todo && Stale(before, id, timeout, now) then Released(before.jobs[id],
              Pending) else before.jobs[id]
        invariant Lists(rows, picked)
        invariant forall id :: id in picked <==> id in before.jobs && id !in todo && Stale(before, id, timeout, now)
        decreases todo
      {
        var id :| id in todo;
        var row := jobs[id];
        var overdue := row.lockedAt.Some? && row.lockedAt.value < now - timeout;
        var orphaned := row.lockedBy.Some? && row.lockedBy.value in workers
          && (workers[row.lockedBy.value].status == Dead || workers[row.lockedBy.value].lastHeartbeat < now - timeout);
        assert row == before.jobs[id] && Stale(before, id, timeout, now) == (row.status == Running
            && (overdue || orphaned));
        if row.status == Running && (overdue || orphaned) {
          jobs := jobs[id := row.(status := Pending, lockedBy := None, lockedAt := None)];
          ListsOneMore(rows, picked, id);
          rows, picked := rows + [id], picked + {id};
        }
        todo := todo - {id};
      }
      assert picked == StaleJobs(before, timeout, now);
    }

    method ReclaimDueRetryJobs(now: Time) returns (rows: seq<JobId>)
      modifies this
      ensures Rows() == ReclaimDueRetries(old(Rows()), now)
      ensures Lists(rows, DueRetries(old(Rows()), now))
    {
      rows := [];
      var todo := jobs.Keys;
      ghost var picked: set<JobId> := {};
      ghost var before := Rows();
      while todo != {}
        invariant todo <= jobs.Keys == before.jobs.Keys && workers == before.workers && letters == before.letters
        invariant forall id :: id in jobs ==>
          jobs[id] == if id !in todo && RetryDue(before, id, now) then Released(before.jobs[id],
              Pending) else before.jobs[id]
        invariant Lists(rows, picked)
        invariant forall id :: id in picked <==> id in before.jobs && id !in todo && RetryDue(before, id, now)
        decreases todo
      {
        var id :| id in todo;
        var row := jobs[id];
        if row.status == Retrying && row.nextRetryAt.Some? && row.nextRetryAt.value <= now {
          jobs := jobs[id := row.(status := Pending, lockedBy := None, lockedAt := None)];
          ListsOneMore(rows, picked, id);
          rows, picked := rows + [id], picked + {id};
        }
        todo := todo - {id};
      }
      assert picked == DueRetries(before, now);
    }

    method GetPendingScheduledJobs() returns (rows: seq<JobId>)
      ensures Lists(rows, PendingScheduled(Rows()))
      ensures forall id :: id in rows <==> id in jobs && jobs[id].status == Pending && jobs[id].scheduledFor.Some?
    {
      rows := [];
      var todo := jobs.Keys;
      ghost var picked: set<JobId> := {};
      while todo != {}
        invariant todo <= jobs.Keys
        invariant Lists(rows, picked)
        invariant forall id :: id in picked <==> id in jobs && id !in todo && AwaitsSchedule(Rows(), id)
        decreases todo
      {
        var id :| id in todo;
        if jobs[id].status == Pending && jobs[id].scheduledFor.Some? {
          ListsOneMore(rows, picked, id);
          rows, picked := rows + [id], picked + {id};
        }
        todo := todo - {id};
      }
      assert picked == PendingScheduled(Rows());
    }

    // ---- Client requests ----

    /** The SELECT of a cancel request. */
    method StatusOf(id: JobId) returns (status: Option<Status>)
      ensures status == if id in jobs then Some(jobs[id].status) else None
    {
      status := if id in jobs then Some(jobs[id].status) else None;
    }

    /**
     The UPDATE of a cancel request, after its SELECT has seen a status. If another transaction moves the row out
     of PENDING in between, nothing is written and the stale status is what the caller gets.
     */
    method CancelPendingJob(id: JobId, seen: Status) returns (status: Status)
      modifies this
      ensures Rows() == if seen == Pending then CancelJob(old(Rows()), id) else old(Rows())
      ensures status == if seen == Pending && id in old(jobs) && old(jobs)[id].status == Pending then Failed else seen
    {
      status := seen;
      if seen == Pending && id in jobs && jobs[id].status == Pending {
        jobs := jobs[id := jobs[id].(status := Failed, error := Some(CANCELLED), lockedBy := None, lockedAt := None)];
        status := Failed;
      }
    }

    /** The identifier may name the dead letter or its job; of several matches the query returns any one. */
    predicate Matches(letter: LetterId, identifier: nat)
      reads this
    {
      letter in letters && (letter == identifier || letters[letter].jobId == identifier)
    }

    method ReplayDeadLetter(identifier: nat) returns (replayed: Option<Replayed>)
      modifies this
      ensures replayed.None? <==> forall l :: !old(Matches(l, identifier))
      ensures replayed.None? ==> Rows() == old(Rows())
      ensures replayed.Some? ==>
        && old(Matches(replayed.value.letter, identifier))
        && replayed.value.job == old(letters)[replayed.value.letter].jobId
        && Rows() == ReplayLetter(old(Rows()), replayed.value.letter)
      // the letter is gone, and its job starts over
      ensures replayed.Some? ==>
        && letters == old(letters) - {replayed.value.letter} && workers == old(workers)
        && jobs.Keys == old(jobs).Keys
        && (forall id :: id in jobs && id != replayed.value.job ==> jobs[id] == old(jobs)[id])
        && (replayed.value.job in jobs ==> StartsOver(old(jobs)[replayed.value.job], jobs[replayed.value.job]))
    {
      replayed := None;
      var todo := letters.Keys;
      while todo != {} && replayed.None?
        invariant todo <= letters.Keys && Rows() == old(Rows())
        invariant replayed.Some? ==>
          Matches(replayed.value.letter, identifier) && replayed.value.job == letters[replayed.value.letter].jobId
        invariant replayed.None? ==> forall l :: Matches(l, identifier) ==> l in todo
        decreases todo
      {
        var l :| l in todo;
        if l == identifier || letters[l].jobId == identifier {
          replayed := Some(Replayed(l, letters[l].jobId));
        }
        todo := todo - {l};
      }
      if replayed.Some? {
        var id := replayed.value.job;
        letters := letters - {replayed.value.letter};
        if id in jobs {
          jobs := jobs[id := jobs[id].(status := Pending, attempts := 0, error := None, result := None,
                                       nextRetryAt := None, lockedBy := None, lockedAt := None)];
        }
      }
    }
  }
}
