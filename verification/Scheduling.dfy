/** The scheduler: startup sync, promotion of delayed jobs and retries, and its own reaper cycle. */
module Scheduling {
  import opened Domain
  import opened Tables
  import opened Queues
  import opened Protocol
  import opened Store
  import opened Broker
  import opened Daemons
  import Ordering

  // ---- Pushes routed by priority ----

  function RowTier(t: Tables, id: JobId): Tier {
    if id in t.jobs then TierOf(t.jobs[id].spec.priority) else Default
  }

  /** The lists after enqueue_job for each row, each with the priority of its row. */
  function Enqueued(t: Tables, q: Queues, ids: seq<JobId>): Queues {
    if ids == [] then q else LPush(Enqueued(t, q, DropLast(ids)), RowTier(t, Last(ids)), Last(ids))
  }

  function Routed(t: Tables, ids: seq<JobId>, tier: Tier): seq<JobId> {
    if ids == [] then []
    else Routed(t, DropLast(ids), tier) + (if RowTier(t, Last(ids)) == tier then [Last(ids)] else [])
  }

  lemma ReversePush(a: seq<JobId>, id: JobId, lane: seq<JobId>)
    ensures [id] + (Reverse(a) + lane) == Reverse(a + [id]) + lane
  {
    var ids := a + [id];
    assert ids[..|a|] == a && ids[..|a| + 1] == ids;
    MovedOneMore(ids, |a|, lane, map[]);
  }

  /** Every id joins the tier of its own priority, behind what waits there, in the order of the rows. */
  lemma {:induction false} EnqueuedLanes(t: Tables, q: Queues, ids: seq<JobId>, tier: Tier)
    ensures Enqueued(t, q, ids).Lane(tier) == Reverse(Routed(t, ids, tier)) + q.Lane(tier)
    ensures Enqueued(t, q, ids).processing == q.processing && Enqueued(t, q, ids).scheduled == q.scheduled
  {
    if ids != [] {
      EnqueuedLanes(t, q, DropLast(ids), tier);
      Ordering.LPushLane(Enqueued(t, q, DropLast(ids)), RowTier(t, Last(ids)), Last(ids), tier);
      if RowTier(t, Last(ids)) == tier {
        ReversePush(Routed(t, DropLast(ids), tier), Last(ids), q.Lane(tier));
      } else {
        assert Routed(t, ids, tier) == Routed(t, DropLast(ids), tier);
      }
    }
  }

  /** Nothing is lost or doubled on the way: each id is routed to exactly one tier. */
  lemma {:induction false} RoutedOnce(t: Tables, ids: seq<JobId>, id: JobId)
    ensures Occurrences(Routed(t, ids, RowTier(t, id)), id) == Occurrences(ids, id)
    ensures forall tier :: tier != RowTier(t, id) ==> id !in Routed(t, ids, tier)
  {
    if ids != [] {
      RoutedOnce(t, DropLast(ids), id);
      assert ids == DropLast(ids) + [Last(ids)];
    }
  }

  lemma EnqueuedOneMore(t: Tables, q: Queues, ids: seq<JobId>, i: nat)
    requires i < |ids|
    ensures Enqueued(t, q, ids[..i + 1]) == LPush(Enqueued(t, q, ids[..i]), RowTier(t, ids[i]), ids[i])
  {
    assert DropLast(ids[..i + 1]) == ids[..i] && Last(ids[..i + 1]) == ids[i];
  }

  lemma {:induction false} DeliveredByPriority(base: System, q: Queues, ids: seq<JobId>)
    ensures Delivered(base, q, ByPriority, ids) == Enqueued(base.tables, q, ids)
  {
    if ids != [] {
      DeliveredByPriority(base, q, DropLast(ids));
    }
  }

  // ---- The calendar ----

  function SlotOf(t: Tables, id: JobId): Time {
    if AwaitsSchedule(t, id) then t.jobs[id].scheduledFor.value else 0.0
  }

  /** Each of the ids has its own time, everything else the time it had. */
  function Calendared(t: Tables, scheduled: map<JobId, Time>, ids: set<JobId>): map<JobId, Time> {
    map id | id in scheduled.Keys + ids :: if id in ids then SlotOf(t, id) else scheduled[id]
  }

  lemma CalendaredOneMore(t: Tables, scheduled: map<JobId, Time>, ids: seq<JobId>, i: nat)
    requires i < |ids|
    ensures Calendared(t, scheduled, Members(ids[..i]))[ids[i] := SlotOf(t, ids[i])]
         == Calendared(t, scheduled, Members(ids[..i + 1]))
  {
    assert ids[..i + 1] == ids[..i] + [ids[i]];
    assert Members(ids[..i + 1]) == Members(ids[..i]) + {ids[i]};
  }

  /** Delivering awaiting rows gives each its own time, in whatever order the rows come. */
  lemma {:induction false} DeliveredOnCalendar(base: System, q: Queues, ids: seq<JobId>)
    requires forall x :: x in ids ==> AwaitsSchedule(base.tables, x)
    ensures Delivered(base, q, OnCalendar, ids) == q.(scheduled := Calendared(base.tables, q.scheduled, Members(ids)))
  {
    if ids != [] {
      assert ids == DropLast(ids) + [Last(ids)] && ids[..|ids|] == ids;
      DeliveredOnCalendar(base, q, DropLast(ids));
      CalendaredOneMore(base.tables, q.scheduled, ids, |ids| - 1);
    } else {
      assert Calendared(base.tables, q.scheduled, {}) == q.scheduled;
      assert Members(ids) == {};
    }
  }

  lemma CountListed(ids: seq<JobId>, s: set<JobId>)
    requires Lists(ids, s)
    ensures |ids| == |s|
  {
    ListedOnce(ids, s);
    assert |multiset(ids)| == |multiset(s)|;
  }

  /** Every waiting row with a schedule has its own time, every other entry is as it was. */
  lemma SyncedExactly(t: Tables, scheduled: map<JobId, Time>, id: JobId)
    ensures var after := Calendared(t, scheduled, PendingScheduled(t));
            if id in t.jobs && t.jobs[id].status == Pending && t.jobs[id].scheduledFor.Some?
            then id in after && after[id] == t.jobs[id].scheduledFor.value
            else (id in after <==> id in scheduled) && (id in after ==> after[id] == scheduled[id])
  {}

  // ---- The process ----

  const REAPER_PERIOD := 5.0

  datatype Instant = Instant(now: Time, signal: bool)

  predicate NoSignal(turns: seq<Instant>, n: nat)
    requires n <= |turns|
  {
    n == 0 || (NoSignal(turns, n - 1) && !turns[n - 1].signal)
  }

  predicate Reaps(last: Time, now: Time) {
    now - last >= REAPER_PERIOD
  }

  /** When the reaper cycle last ran, after n turns of the loop. */
  function LastReap(turns: seq<Instant>, n: nat): Time
    requires n <= |turns|
  {
    if n == 0 then 0.0 else NextReap(LastReap(turns, n - 1), turns[n - 1].now)
  }

  function NextReap(last: Time, now: Time): Time {
    if Reaps(last, now) then now else last
  }

  /** WORKER_TIMEOUT_SEC and DEFAULT_VISIBILITY_TIMEOUT_SEC. */
  datatype Limits = Limits(heartbeat: Time, visibility: Time)

  /** The rows that the statements of one turn returned, in the order they came. */
  datatype Returned = Returned(retried: seq<JobId>, stale: seq<JobId>)
  {
    ghost predicate By(t: Tables, reaps: bool, now: Time, limits: Limits) {
      && Lists(retried, DueRetries(t, now))
      && if reaps
         then Lists(stale, set id | id in t.jobs && Stranded(t, id, limits.heartbeat, limits.visibility, now))
         else stale == []
    }
  }

  /** What a turn leaves: everything due promoted, and after a turn that reaps the tables of a whole pass. */
  ghost function AfterTurn(s: Stores, reaps: bool, now: Time, returned: Returned, limits: Limits): Stores {
    var t := if reaps then Pass(s.rows, limits.heartbeat, limits.visibility, now) else ReclaimDueRetries(s.rows, now);
    Stores(t, Enqueued(t, Enqueued(t, Promote(s.lists, now), returned.retried), returned.stale))
  }

  function Synced(s: Stores): Stores {
    s.(lists := s.lists.(scheduled := Calendared(s.rows, s.lists.scheduled, PendingScheduled(s.rows))))
  }

  /** One turn leads from before to after, in whatever order the statements return their rows. */
  ghost predicate Turned(before: Stores, after: Stores, last: Time, now: Time, returned: Returned, limits: Limits) {
    && returned.By(before.rows, Reaps(last, now), now, limits)
    && after == AfterTurn(before, Reaps(last, now), now, returned, limits)
  }

  ghost predicate TurnsLead(s: Stores, turns: seq<Instant>, n: nat, end: Stores, limits: Limits)
    requires n <= |turns|
    decreases n, 1
  {
    if n == 0 then end == s
    else exists mid, returned :: TurnsLeadVia(s, turns, n, mid, returned, end, limits)
  }

  ghost predicate TurnsLeadVia(s: Stores, turns: seq<Instant>, n: nat, mid: Stores, returned: Returned, end: Stores,
                               limits: Limits)
    requires 0 < n <= |turns|
    decreases n, 0
  {
    && TurnsLead(s, turns, n - 1, mid, limits)
    && Turned(mid, end, LastReap(turns, n - 1), turns[n - 1].now, returned, limits)
  }

  lemma OneMoreTurn(s: Stores, turns: seq<Instant>, n: nat, mid: Stores, returned: Returned, end: Stores,
                    limits: Limits)
    requires n < |turns| && TurnsLead(s, turns, n, mid, limits)
    requires Turned(mid, end, LastReap(turns, n), turns[n].now, returned, limits)
    ensures TurnsLead(s, turns, n + 1, end, limits)
    ensures LastReap(turns, n + 1) == NextReap(LastReap(turns, n), turns[n].now)
  {
    assert TurnsLeadVia(s, turns, n + 1, mid, returned, end, limits);
  }

  class Scheduler {
    const limits: Limits
    var running: bool
    var lastReaperRun: Time

    constructor (cfg: Config)
      ensures limits == Limits(cfg.heartbeatTimeout, cfg.visibilityTimeout)
      ensures !running && lastReaperRun == 0.0
    {
      limits := Limits(cfg.heartbeatTimeout, cfg.visibilityTimeout);
      running, lastReaperRun := false, 0.0;
    }

    /** schedule_job for each returned row. */
    method ScheduleRows(db: Database, redis: Redis, rows: seq<JobId>) returns (count: nat)
      requires forall id :: id in rows ==> AwaitsSchedule(db.Rows(), id)
      modifies redis
      ensures count == |rows|
      ensures redis.Entries()
           == old(redis.Entries()).(scheduled := Calendared(db.Rows(), old(redis.scheduled), Members(rows)))
    {
      count := 0;
      assert Calendared(db.Rows(), redis.scheduled, {}) == redis.scheduled;
      for i := 0 to |rows|
        invariant count == i
        invariant redis.Entries()
          == old(redis.Entries()).(scheduled := Calendared(db.Rows(), old(redis.scheduled), Members(rows[..i])))
      {
        assert rows[i] in rows;
        CalendaredOneMore(db.Rows(), old(redis.scheduled), rows, i);
        redis.ScheduleJob(rows[i], db.jobs[rows[i]].scheduledFor.value);
        count := count + 1;
      }
      assert rows[..|rows|] == rows;
    }

    /** Every PENDING row with a schedule gets an entry with its own time; nothing else moves. */
    method SyncFromDb(db: Database, redis: Redis) returns (count: nat)
      modifies redis
      ensures count == |set id | id in db.jobs && db.jobs[id].status == Pending && db.jobs[id].scheduledFor.Some?|
      ensures redis.Entries() == old(redis.Entries()).(scheduled := Calendared(db.Rows(), old(redis.scheduled),
          PendingScheduled(db.Rows())))
      // every waiting row with a schedule is in the set at its own time, every other entry is as it was
      ensures forall id :: id in db.jobs && db.jobs[id].status == Pending && db.jobs[id].scheduledFor.Some? ==>
        id in redis.scheduled && redis.scheduled[id] == db.jobs[id].scheduledFor.value
      ensures forall id ::
        !(id in db.jobs && db.jobs[id].status == Pending && db.jobs[id].scheduledFor.Some?) ==>
          && (id in redis.scheduled <==> id in old(redis.scheduled))
          && (id in redis.scheduled ==> redis.scheduled[id] == old(redis.scheduled)[id])
    {
      var rows := db.GetPendingScheduledJobs();
      count := ScheduleRows(db, redis, rows);
      CountListed(rows, PendingScheduled(db.Rows()));
      assert Members(rows) == PendingScheduled(db.Rows());
      assert PendingScheduled(db.Rows())
          == set id | id in db.jobs && db.jobs[id].status == Pending && db.jobs[id].scheduledFor.Some?;
      forall id {
        SyncedExactly(db.Rows(), old(redis.scheduled), id);
      }
    }

    method RunOnce(redis: Redis, now: Time) returns (promoted: seq<JobId>)
      modifies redis
      ensures promoted == DueOrder(old(redis.scheduled), now)
      ensures redis.Entries() == Promote(old(redis.Entries()), now)
    {
      promoted := redis.PromoteDueScheduledJobs(now);
    }

    /** enqueue_job for each returned row. */
    method EnqueueRows(db: Database, redis: Redis, rows: seq<JobId>)
      requires forall id :: id in rows ==> id in db.jobs
      modifies redis
      ensures redis.Entries() == Enqueued(db.Rows(), old(redis.Entries()), rows)
    {
      for i := 0 to |rows|
        invariant redis.Entries() == Enqueued(db.Rows(), old(redis.Entries()), rows[..i])
      {
        EnqueuedOneMore(db.Rows(), old(redis.Entries()), rows, i);
        assert rows[i] in rows;
        redis.EnqueueJob(rows[i], db.jobs[rows[i]].spec.priority);
      }
      assert rows[..|rows|] == rows;
    }

    method PromoteDueRetries(db: Database, redis: Redis, now: Time) returns (count: nat, ghost rows: seq<JobId>)
      modifies db, redis
      ensures db.Rows() == ReclaimDueRetries(old(db.Rows()), now)
      ensures Lists(rows, DueRetries(old(db.Rows()), now)) && count == |rows|
      ensures redis.Entries() == Enqueued(db.Rows(), old(redis.Entries()), rows)
    {
      var due := db.ReclaimDueRetryJobs(now);
      EnqueueRows(db, redis, due);
      count, rows := |due|, due;
    }

    method RunReaper(db: Database, redis: Redis, now: Time) returns (ghost rows: seq<JobId>)
      modifies db, redis
      ensures db.Rows() == ReclaimStale(ExpireWorkers(old(db.Rows()), limits.heartbeat, now), limits.visibility, now)
      ensures Lists(rows, set id | id in old(db.jobs)
              && Stranded(old(db.Rows()), id, limits.heartbeat, limits.visibility, now))
      ensures redis.Entries() == Enqueued(db.Rows(), old(redis.Entries()), rows)
    {
      SameRowsAreDue(db.Rows(), limits.heartbeat, limits.visibility, now);
      var dead := db.MarkExpiredWorkersDead(limits.heartbeat, now);
      var stale := db.ReclaimStaleJobs(limits.visibility, now);
      EnqueueRows(db, redis, stale);
      rows := stale;
    }

    /** The body of the main loop: delayed jobs, due retries, and every five seconds a reaper cycle. */
    method Turn(db: Database, redis: Redis, now: Time) returns (ghost returned: Returned)
      modifies this`lastReaperRun, db, redis
      ensures lastReaperRun == NextReap(old(lastReaperRun), now)
      ensures now - lastReaperRun < 5.0 && (now - old(lastReaperRun) < 5.0 ==> lastReaperRun == old(lastReaperRun))
      ensures Turned(old(Stores(db.Rows(), redis.Entries())), Stores(db.Rows(), redis.Entries()), old(lastReaperRun),
          now,
                     returned, limits)
    {
      SameRowsStranded(db.Rows(), limits.heartbeat, limits.visibility, now);
      TurnIsPass(db.Rows(), limits.heartbeat, limits.visibility, now);
      var promoted := RunOnce(redis, now);
      var count;
      ghost var retried, stale;
      count, retried := PromoteDueRetries(db, redis, now);
      stale := [];
      if now - lastReaperRun >= REAPER_PERIOD {
        lastReaperRun := now;
        ghost var middle := db.Rows();
        stale := RunReaper(db, redis, now);
        SameTiers(middle, db.Rows(), Promote(old(redis.Entries()), now), retried);
      }
      returned := Returned(retried, stale);
    }

    /** The same for the n-th turn of a run of the loop that began at start. */
    method TakeTurn(db: Database, redis: Redis, turns: seq<Instant>, n: nat, ghost start: Stores)
      requires n < |turns| && lastReaperRun == LastReap(turns, n)
      requires TurnsLead(start, turns, n, Stores(db.Rows(), redis.Entries()), limits)
      modifies this`lastReaperRun, db, redis
      ensures lastReaperRun == LastReap(turns, n + 1)
      ensures TurnsLead(start, turns, n + 1, Stores(db.Rows(), redis.Entries()), limits)
    {
      ghost var before := Stores(db.Rows(), redis.Entries());
      ghost var returned := Turn(db, redis, turns[n].now);
      OneMoreTurn(start, turns, n, before, returned, Stores(db.Rows(), redis.Entries()), limits);
    }

    /** The main loop: it takes every turn up to the signal and none after it. */
    method Loop(db: Database, redis: Redis, turns: seq<Instant>, ghost start: Stores) returns (n: nat)
      requires running && lastReaperRun == 0.0 && start == Stores(db.Rows(), redis.Entries())
      modifies this, db, redis
      ensures n <= |turns| && (n > 0 ==> NoSignal(turns, n - 1)) && (n < |turns| ==> n > 0 && turns[n - 1].signal)
      ensures lastReaperRun == LastReap(turns, n)
      ensures TurnsLead(start, turns, n, Stores(db.Rows(), redis.Entries()), limits)
    {
      n := 0;
      while running && n < |turns|
        invariant n <= |turns|
        invariant if running then NoSignal(turns, n) else n > 0 && NoSignal(turns, n - 1) && turns[n - 1].signal
        invariant lastReaperRun == LastReap(turns, n)
        invariant TurnsLead(start, turns, n, Stores(db.Rows(), redis.Entries()), limits)
        decreases |turns| - n
      {
        TakeTurn(db, redis, turns, n, start);
        if turns[n].signal {
          running := false;
        }
        n := n + 1;
      }
    }

    /**
     The process from start to the signal that ends it. turns lists the instants at which the loop comes round
     and whether the signal handler has run by then.
     */
    method Start(db: Database, redis: Redis, turns: seq<Instant>) returns (n: nat)
      requires lastReaperRun == 0.0
      modifies this, db, redis
      ensures n <= |turns| && (n > 0 ==> NoSignal(turns, n - 1)) && (n < |turns| ==> n > 0 && turns[n - 1].signal)
      ensures lastReaperRun == LastReap(turns, n)
      ensures TurnsLead(Synced(old(Stores(db.Rows(), redis.Entries()))), turns, n, Stores(db.Rows(),
          redis.Entries()), limits)
    {
      running := true;
      var count := SyncFromDb(db, redis);
      n := Loop(db, redis, turns, Stores(db.Rows(), redis.Entries()));
    }
  }

  predicate Comes(turns: seq<Instant>, gap: Time) {
    && (turns != [] ==> 0.0 <= turns[0].now)
    && forall i {:trigger turns[i]} :: 0 < i < |turns| ==> turns[i - 1].now <= turns[i].now <= turns[i - 1].now + gap
  }

  /** If the loop comes round every gap seconds at least, no reaper cycle is older than its period plus that gap. */
  lemma {:induction false} ReaperKeepsPace(turns: seq<Instant>, gap: Time, n: nat, moment: Time)
    requires Comes(turns, gap) && 0 < n < |turns| && turns[n - 1].now <= moment <= turns[n].now
    ensures 0.0 <= LastReap(turns, n) <= turns[n - 1].now
    ensures moment - LastReap(turns, n) < 5.0 + gap
  {
    if n > 1 {
      ReaperKeepsPace(turns, gap, n - 1, turns[n - 1].now);
    }
    assert turns[n].now <= turns[n - 1].now + gap;
  }

  lemma {:induction false} SameTiers(t: Tables, u: Tables, q: Queues, ids: seq<JobId>)
    requires forall id :: RowTier(t, id) == RowTier(u, id)
    ensures Enqueued(t, q, ids) == Enqueued(u, q, ids)
  {
    if ids != [] {
      SameTiers(t, u, q, DropLast(ids));
    }
  }

  lemma SameRowsStranded(t: Tables, heartbeatTimeout: Time, visibilityTimeout: Time, now: Time)
    ensures (set id | id in t.jobs && Stranded(ReclaimDueRetries(t, now), id, heartbeatTimeout, visibilityTimeout, now))
         == set id | id in t.jobs && Stranded(t, id, heartbeatTimeout, visibilityTimeout, now)
  {}

  /** The two halves commute: a turn that reaps leaves the tables a whole reaper pass would leave. */
  lemma TurnIsPass(t: Tables, heartbeatTimeout: Time, visibilityTimeout: Time, now: Time)
    ensures ReclaimStale(ExpireWorkers(ReclaimDueRetries(t, now), heartbeatTimeout, now), visibilityTimeout, now)
         == Pass(t, heartbeatTimeout, visibilityTimeout, now)
  {
    var turn := ReclaimStale(ExpireWorkers(ReclaimDueRetries(t, now), heartbeatTimeout, now), visibilityTimeout, now);
    forall id | id in t.jobs ensures turn.jobs[id] == Pass(t, heartbeatTimeout, visibilityTimeout, now).jobs[id] {
      PassIsExact(t, heartbeatTimeout, visibilityTimeout, now, id);
    }
  }
}
