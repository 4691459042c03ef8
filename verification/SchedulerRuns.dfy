/** The scheduler's code as runs of the protocol: each call, one turn of the main loop, and the whole process. */
module SchedulerRuns {
  import opened Domain
  import opened Tables
  import opened Queues
  import opened Protocol
  import opened Store
  import opened Broker
  import opened Traces
  import opened Daemons
  import opened Scheduling
  import opened Custody
  import opened Routing

  // ---- One call ----

  /** What Scheduler.PromoteDueRetries leaves behind is where this run ends. */
  lemma PromotionTrace(cfg: Config, s: System, rows: seq<JobId>) returns (steps: seq<Step>, u: System)
    requires Lists(rows, DueRetries(s.tables, s.now))
    ensures Reaches(cfg, s, steps, u)
    ensures u.tables == ReclaimDueRetries(s.tables, s.now) && u.queues == Enqueued(u.tables, s.queues, rows)
    ensures u.hands == s.hands && u.now == s.now && u.passMark == s.passMark && u.passReclaim == s.passReclaim
  {
    ListedOnce(rows, DueRetries(s.tables, s.now));
    var t;
    steps, t := First(cfg, s, Daemon(PromoteRetries(ByScheduler)));
    var base := t.(hands := s.hands);
    assert Owes(cfg, s, steps, base, base.queues, ByPriority, rows);
    steps := DeliverTrace(cfg, s, steps, base, ByPriority, rows);
    DeliveredByPriority(base, base.queues, rows);
    u := base.(queues := Enqueued(base.tables, base.queues, rows));
  }

  /** What Scheduler.RunReaper leaves behind; the pass counts as completed now. */
  lemma ReaperTrace(cfg: Config, s: System, rows: seq<JobId>) returns (steps: seq<Step>, u: System)
    requires Lists(rows, StaleJobs(ExpireWorkers(s.tables, cfg.heartbeatTimeout, s.now), cfg.visibilityTimeout, s.now))
    ensures Reaches(cfg, s, steps, u)
    ensures u.tables == ReclaimStale(ExpireWorkers(s.tables, cfg.heartbeatTimeout, s.now), cfg.visibilityTimeout, s.now)
    ensures u.queues == Enqueued(u.tables, s.queues, rows)
    ensures u.hands == s.hands && u.now == s.now && u.passMark == u.passReclaim == s.now
  {
    var t, v;
    steps, t := First(cfg, s, Daemon(Expire));
    ListedOnce(rows, StaleJobs(t.tables, cfg.visibilityTimeout, s.now));
    steps, v := OneMore(cfg, s, steps, t, Daemon(Reclaim(ByScheduler)));
    var base := v.(hands := s.hands);
    assert Owes(cfg, s, steps, base, base.queues, ByPriority, rows);
    steps := DeliverTrace(cfg, s, steps, base, ByPriority, rows);
    DeliveredByPriority(base, base.queues, rows);
    u := base.(queues := Enqueued(base.tables, base.queues, rows));
  }

  /** What Scheduler.SyncFromDb leaves behind is where this run ends. */
  lemma SyncTrace(cfg: Config, s: System, rows: seq<JobId>) returns (steps: seq<Step>, u: System)
    requires Lists(rows, PendingScheduled(s.tables))
    ensures Reaches(cfg, s, steps, u)
    ensures Stores(u.tables, u.queues) == Synced(Stores(s.tables, s.queues))
    ensures u.hands == s.hands && u.now == s.now && u.passMark == s.passMark && u.passReclaim == s.passReclaim
  {
    ListedOnce(rows, PendingScheduled(s.tables));
    var t;
    steps, t := First(cfg, s, Daemon(Resync));
    var base := t.(hands := s.hands);
    assert Owes(cfg, s, steps, base, base.queues, OnCalendar, rows);
    steps := DeliverTrace(cfg, s, steps, base, OnCalendar, rows);
    DeliveredOnCalendar(base, base.queues, rows);
    assert Members(rows) == PendingScheduled(s.tables);
    u := base.(queues := s.queues.(scheduled := Calendared(s.tables, s.queues.scheduled, PendingScheduled(s.tables))));
  }

  // ---- What the startup sync is for ----

  /** The row still has to run at this time. */
  predicate WaitsFor(t: Tables, id: JobId, at: Time) {
    id in t.jobs && t.jobs[id].status == Pending && t.jobs[id].scheduledFor == Some(at)
  }

  /** Whatever Redis has lost, after the sync every waiting job with a schedule is in the set at its own time. */
  lemma SyncRestores(cfg: Config, ss: seq<System>, steps: seq<Step>, rows: seq<JobId>)
    returns (longer: seq<System>, more: seq<Step>)
    requires Run(cfg, ss, steps) && Initial(ss[0]) && Lists(rows, PendingScheduled(ss[|steps|].tables))
    ensures Run(cfg, longer, steps + more) && ss <= longer
    ensures var s, u := ss[|steps|], longer[|steps + more|];
            && u.tables == s.tables && u.now == s.now && u.queues.Lane(Default) == s.queues.Lane(Default)
            && forall id, at :: WaitsFor(s.tables, id, at) ==>
                 id in u.queues.scheduled && u.queues.scheduled[id] == at && Kept(u, id)
  {
    var s := ss[|steps|];
    var u;
    more, u := SyncTrace(cfg, s, rows);
    longer := Continues(cfg, ss, steps, more, u);
    forall id, at | WaitsFor(s.tables, id, at)
      ensures id in u.queues.scheduled && u.queues.scheduled[id] == at && Kept(u, id)
    {
      SyncedExactly(s.tables, s.queues.scheduled, id);
      LocksAlwaysMatch(cfg, ss, steps, |steps|, id);
    }
  }

  /** And it reaches the default queue as soon as the loop comes round after its time. */
  lemma RestoredJobsArePromoted(cfg: Config, ss: seq<System>, steps: seq<Step>, rows: seq<JobId>, now: Time)
    returns (longer: seq<System>, more: seq<Step>)
    requires Run(cfg, ss, steps) && Initial(ss[0]) && ss[|steps|].now <= now
    requires Lists(rows, PendingScheduled(ss[|steps|].tables))
    ensures Run(cfg, longer, steps + more) && ss <= longer
    ensures var s, u := ss[|steps|], longer[|steps + more|];
            && u.now == now && u.tables == s.tables
            && forall id, at :: WaitsFor(s.tables, id, at) ==>
                 if at <= now then id in u.queues.Lane(Default)
                 else id in u.queues.scheduled && u.queues.scheduled[id] == at
  {
    var s := ss[|steps|];
    var synced, front := SyncRestores(cfg, ss, steps, rows);
    var t := synced[|steps + front|];
    var back, u := PromoteTrace(cfg, t, now);
    longer := Continues(cfg, synced, steps + front, back, u);
    more := front + back;
    assert steps + front + back == steps + more;
    forall id, at | WaitsFor(s.tables, id, at)
      ensures if at <= now then id in u.queues.Lane(Default)
              else id in u.queues.scheduled && u.queues.scheduled[id] == at
    {
      PromotionGains(t.queues, now, id);
      assert id in t.queues.scheduled && t.queues.scheduled[id] == at;
    }
  }

  // ---- One turn ----

  function LimitsOf(cfg: Config): Limits {
    Limits(cfg.heartbeatTimeout, cfg.visibilityTimeout)
  }

  ghost predicate ReapedBy(s: System, moment: Time) {
    s.passMark >= moment && s.passReclaim >= moment
  }

  /** The clock moves to the turn and the script runs. */
  lemma PromoteTrace(cfg: Config, s: System, now: Time) returns (steps: seq<Step>, t: System)
    requires s.now <= now
    ensures Reaches(cfg, s, steps, t) && t == s.(now := now, queues := Promote(s.queues, now))
  {
    var u;
    steps, u := First(cfg, s, Env(Tick(now)));
    steps, t := OneMore(cfg, s, steps, u, Daemon(PromoteDue));
  }

  /** The part of a turn that every turn has. */
  lemma QuietTurnTrace(cfg: Config, s: System, now: Time, retried: seq<JobId>) returns (steps: seq<Step>, u: System)
    requires s.now <= now && Lists(retried, DueRetries(s.tables, now))
    ensures Reaches(cfg, s, steps, u)
    ensures u.tables == ReclaimDueRetries(s.tables, now)
    ensures u.queues == Enqueued(u.tables, Promote(s.queues, now), retried)
    ensures u.hands == s.hands && u.now == now && u.passMark == s.passMark && u.passReclaim == s.passReclaim
  {
    var front, t := PromoteTrace(cfg, s, now);
    var back;
    back, u := PromotionTrace(cfg, t, retried);
    Through(cfg, s, front, t, back, u);
    steps := front + back;
  }

  /** What Scheduler.Turn leaves behind is where this run ends; a turn that reaps completes a pass. */
  lemma TurnTrace(cfg: Config, s: System, end: Stores, last: Time, now: Time, returned: Returned)
    returns (steps: seq<Step>, u: System)
    requires s.now <= now && ReapedBy(s, last)
    requires Turned(Stores(s.tables, s.queues), end, last, now, returned, LimitsOf(cfg))
    ensures Reaches(cfg, s, steps, u) && Stores(u.tables, u.queues) == end
    ensures u.hands == s.hands && u.now == now && ReapedBy(u, NextReap(last, now))
  {
    var front, t := QuietTurnTrace(cfg, s, now, returned.retried);
    if Reaps(last, now) {
      StaleAfterRetries(cfg, s.tables, now);
      var back;
      back, u := ReaperTrace(cfg, t, returned.stale);
      Through(cfg, s, front, t, back, u);
      steps := front + back;
      TurnIsPass(s.tables, cfg.heartbeatTimeout, cfg.visibilityTimeout, now);
      SameTiers(t.tables, u.tables, Promote(s.queues, now), returned.retried);
    } else {
      steps, u := front, t;
    }
  }

  lemma StaleAfterRetries(cfg: Config, t: Tables, now: Time)
    ensures StaleJobs(ExpireWorkers(ReclaimDueRetries(t, now), cfg.heartbeatTimeout, now), cfg.visibilityTimeout, now)
         == set id | id in t.jobs && Stranded(t, id, cfg.heartbeatTimeout, cfg.visibilityTimeout, now)
  {
    SameRowsAreDue(ReclaimDueRetries(t, now), cfg.heartbeatTimeout, cfg.visibilityTimeout, now);
    SameRowsStranded(t, cfg.heartbeatTimeout, cfg.visibilityTimeout, now);
  }

  // ---- The whole process ----

  predicate Forward(began: Time, turns: seq<Instant>) {
    forall i {:trigger turns[i]} :: 0 <= i < |turns| ==> (if i == 0 then began else turns[i - 1].now) <= turns[i].now
  }

  lemma NextTurnTrace(cfg: Config, s: System, front: seq<Step>, t: System, end: Stores, last: Time, now: Time,
                      returned: Returned)
    returns (steps: seq<Step>, u: System)
    requires Reaches(cfg, s, front, t) && t.now <= now && ReapedBy(t, last)
    requires Turned(Stores(t.tables, t.queues), end, last, now, returned, LimitsOf(cfg))
    ensures Reaches(cfg, s, steps, u) && Stores(u.tables, u.queues) == end
    ensures u.hands == t.hands && u.now == now && ReapedBy(u, NextReap(last, now))
  {
    var back;
    back, u := TurnTrace(cfg, t, end, last, now, returned);
    Through(cfg, s, front, t, back, u);
    steps := front + back;
  }

  lemma {:induction false} TurnsTrace(cfg: Config, s: System, turns: seq<Instant>, n: nat, end: Stores)
    returns (steps: seq<Step>, u: System)
    requires n <= |turns| && Forward(s.now, turns) && ReapedBy(s, 0.0)
    requires TurnsLead(Stores(s.tables, s.queues), turns, n, end, LimitsOf(cfg))
    ensures Reaches(cfg, s, steps, u) && Stores(u.tables, u.queues) == end && u.hands == s.hands
    ensures u.now == (if n == 0 then s.now else turns[n - 1].now) && ReapedBy(u, LastReap(turns, n))
  {
    if n == 0 {
      steps, u := [], s;
      ReachesItself(cfg, s);
    } else {
      var mid, returned :| TurnsLeadVia(Stores(s.tables, s.queues), turns, n, mid, returned, end, LimitsOf(cfg));
      var front, t := TurnsTrace(cfg, s, turns, n - 1, mid);
      steps, u := NextTurnTrace(cfg, s, front, t, end, LastReap(turns, n - 1), turns[n - 1].now, returned);
    }
  }

  /** What Scheduler.Start leaves behind is where this run ends, and the last pass is then less than a period old. */
  lemma StartTrace(cfg: Config, s: System, rows: seq<JobId>, turns: seq<Instant>, n: nat, end: Stores)
    returns (steps: seq<Step>, u: System)
    requires Lists(rows, PendingScheduled(s.tables)) && n <= |turns| && Forward(s.now, turns) && ReapedBy(s, 0.0)
    requires TurnsLead(Synced(Stores(s.tables, s.queues)), turns, n, end, LimitsOf(cfg))
    ensures Reaches(cfg, s, steps, u) && Stores(u.tables, u.queues) == end && u.hands == s.hands
    ensures n > 0 ==> u.now - u.passMark < REAPER_PERIOD && u.now - u.passReclaim < REAPER_PERIOD
  {
    var front, t := SyncTrace(cfg, s, rows);
    var back;
    back, u := TurnsTrace(cfg, t, turns, n, end);
    Through(cfg, s, front, t, back, u);
    steps := front + back;
  }
}
