/** The reaper as it runs: statements on the tables, then a loop of pushes for the rows they returned. */
module Daemons {
  import opened Domain
  import opened Tables
  import opened Queues
  import opened Protocol
  import opened Store
  import opened Broker
  import opened Traces

  // ---- What one reaper pass does to the tables ----

  function Pass(t: Tables, heartbeatTimeout: Time, visibilityTimeout: Time, now: Time): Tables {
    ReclaimDueRetries(ReclaimStale(ExpireWorkers(t, heartbeatTimeout, now), visibilityTimeout, now), now)
  }

  /** A RUNNING row whose lock is too old, or whose worker is dead or silent for too long. */
  predicate Stranded(t: Tables, id: JobId, heartbeatTimeout: Time, visibilityTimeout: Time, now: Time) {
    && id in t.jobs
    && var row := t.jobs[id];
       && row.status == Running
       && ((row.lockedAt.Some? && row.lockedAt.value < now - visibilityTimeout)
           || (row.lockedBy.Some? && row.lockedBy.value in t.workers
               && var worker := t.workers[row.lockedBy.value];
                  worker.status == Dead || worker.lastHeartbeat < now - heartbeatTimeout
                  || worker.lastHeartbeat < now - visibilityTimeout))
  }

  /** A RETRYING row whose retry time has come. */
  predicate ReadyAgain(t: Tables, id: JobId, now: Time) {
    && id in t.jobs && t.jobs[id].status == Retrying
    && t.jobs[id].nextRetryAt.Some? && t.jobs[id].nextRetryAt.value <= now
  }

  /** Exactly the stranded rows and the due retries become PENDING, and no row is left stranded or due. */
  lemma PassIsExact(t: Tables, heartbeatTimeout: Time, visibilityTimeout: Time, now: Time, id: JobId)
    ensures var t' := Pass(t, heartbeatTimeout, visibilityTimeout, now);
            && (id in t'.jobs <==> id in t.jobs)
            && (id in t.jobs ==>
                  t'.jobs[id] == if Stranded(t, id, heartbeatTimeout, visibilityTimeout, now) || ReadyAgain(t, id, now)
                                 then t.jobs[id].(status := Pending, lockedBy := None, lockedAt := None)
                                 else t.jobs[id])
            && !Stranded(t', id, heartbeatTimeout, visibilityTimeout, now)
            && !ReadyAgain(t', id, now)
            && t'.letters == t.letters
            && t'.workers == ExpireWorkers(t, heartbeatTimeout, now).workers
  {
    var expired := ExpireWorkers(t, heartbeatTimeout, now);
    assert Stale(expired, id, visibilityTimeout, now) <==> Stranded(t, id, heartbeatTimeout, visibilityTimeout, now);
    assert RetryDue(ReclaimStale(expired, visibilityTimeout, now), id, now) <==> RetryDue(t, id, now);
  }

  // ---- The order of what a pass does not touch ----

  /** One LREM 1 for each id. */
  function RemoveEach(s: seq<JobId>, ids: seq<JobId>): (r: seq<JobId>)
    ensures multiset(r) == multiset(s) - multiset(ids)
  {
    if ids == [] then s
    else
      assert ids == DropLast(ids) + [Last(ids)];
      RemoveFirst(RemoveEach(s, DropLast(ids)), Last(ids))
  }

  lemma {:induction false} RemoveFirstKeepsOrder(s: seq<JobId>, x: JobId, gone: set<JobId>)
    requires x in gone
    ensures Except(RemoveFirst(s, x), gone) == Except(s, gone)
  {
    if s != [] && s[0] != x {
      RemoveFirstKeepsOrder(s[1..], x, gone);
      assert ([s[0]] + RemoveFirst(s[1..], x))[1..] == RemoveFirst(s[1..], x);
    }
  }

  /** Entries of the processing list that belong to other jobs stay in the order they had. */
  lemma {:induction false} RemoveEachKeepsOrder(s: seq<JobId>, ids: seq<JobId>, gone: set<JobId>)
    requires forall x :: x in ids ==> x in gone
    ensures Except(RemoveEach(s, ids), gone) == Except(s, gone)
  {
    if ids != [] {
      RemoveEachKeepsOrder(s, DropLast(ids), gone);
      RemoveFirstKeepsOrder(RemoveEach(s, DropLast(ids)), Last(ids), gone);
    }
  }

  // ---- The loops of pushes, as protocol steps ----

  /** A state in which one daemon still owes Redis a push for each of the ids. */
  ghost function Owing(base: System, q: Queues, route: Route, ids: seq<JobId>): System {
    base.(queues := q, hands := base.hands.Put(route, multiset(ids)))
  }

  lemma NothingOwed(base: System, q: Queues, route: Route)
    ensures Owing(base, q, route, []) == base.(queues := q)
  {
    assert base.hands.On(route) + multiset{} == base.hands.On(route);
  }

  lemma OwesOneLess(base: System, q: Queues, route: Route, ids: seq<JobId>)
    requires ids != []
    ensures ids[0] in Owing(base, q, route, ids).hands.On(route)
    ensures Owing(base, q, route, ids).hands.Take(route, ids[0]) == base.hands.Put(route, multiset(ids[1..]))
  {
    assert ids == [ids[0]] + ids[1..];
    assert base.hands.On(route) + multiset(ids) - multiset{ids[0]} == base.hands.On(route) + multiset(ids[1..]);
  }

  /** After the steps, the daemon owes these pushes and Redis holds q. */
  ghost predicate Owes(cfg: Config, s: System, steps: seq<Step>, base: System, q: Queues, route: Route,
                       ids: seq<JobId>) {
    Reaches(cfg, s, steps, Owing(base, q, route, ids))
  }

  lemma PushOne(cfg: Config, s: System, steps: seq<Step>, base: System, q: Queues, route: Route, ids: seq<JobId>)
    requires Owes(cfg, s, steps, base, q, route, ids) && ids != [] && route != Unprocess
    ensures Owes(cfg, s, steps + [Daemon(Push(route, ids[0]))], base, PushStep(base.(queues := q), route,
        ids[0]).queues, route, ids[1..])
  {
    OwesOneLess(base, q, route, ids);
    Next(cfg, s, steps, Owing(base, q, route, ids), Daemon(Push(route, ids[0])));
  }

  /** requeue_job is two commands: the id leaves the processing list, then reaches the pop end of the default queue. */
  lemma RequeueOne(cfg: Config, s: System, steps: seq<Step>, base: System, q: Queues, ids: seq<JobId>)
    returns (more: seq<Step>)
    requires Owes(cfg, s, steps, base, q, Unprocess, ids) && ids != []
    ensures Owes(cfg, s, more, base, RPush(Ack(q, ids[0]), Default, ids[0]), Unprocess, ids[1..])
  {
    var t := Owing(base, q, Unprocess, ids);
    var u, v;
    OwesOneLess(base, q, Unprocess, ids);
    more, u := OneMore(cfg, s, steps, t, Daemon(Push(Unprocess, ids[0])));
    RequeueMiddle(base, q, ids, u);
    more, v := OneMore(cfg, s, more, u, Daemon(Push(GiveBack, ids[0])));
    RequeueEnd(base, q, ids, u, v);
  }

  /** Between the two commands of requeue_job. */
  lemma RequeueMiddle(base: System, q: Queues, ids: seq<JobId>, u: System)
    requires ids != [] && u == PushStep(Owing(base, q, Unprocess, ids), Unprocess, ids[0])
    ensures u == base.(queues := Ack(q, ids[0]), hands := base.hands.Put(Unprocess, multiset(ids[1..])).Put(GiveBack,
        multiset{ids[0]}))
    ensures ids[0] in u.hands.On(GiveBack)
  {
    OwesOneLess(base, q, Unprocess, ids);
  }

  lemma GivenBack(h: Hands, route: Route, ids: multiset<JobId>, x: JobId)
    ensures h.Put(route, ids).Put(GiveBack, multiset{x}).Take(GiveBack, x) == h.Put(route, ids)
  {
    var g := h.Put(route, ids);
    assert g.giveBack + multiset{x} - multiset{x} == g.giveBack;
  }

  lemma RequeueEnd(base: System, q: Queues, ids: seq<JobId>, u: System, v: System)
    requires ids != [] && v == PushStep(u, GiveBack, ids[0])
    requires u == base.(queues := Ack(q, ids[0]), hands := base.hands.Put(Unprocess,
        multiset(ids[1..])).Put(GiveBack, multiset{ids[0]}))
    ensures v == Owing(base, RPush(Ack(q, ids[0]), Default, ids[0]), Unprocess, ids[1..])
  {
    GivenBack(base.hands, Unprocess, multiset(ids[1..]), ids[0]);
  }

  /** The lists after requeue_job for each of the ids. */
  function Requeued(q: Queues, ids: seq<JobId>): Queues {
    q.(normal := q.normal + ids, processing := RemoveEach(q.processing, ids))
  }

  /** The lists after LPUSH of each of the ids onto the default queue. */
  function Pushed(q: Queues, ids: seq<JobId>): Queues {
    q.(normal := Reverse(ids) + q.normal)
  }

  lemma RequeuedOneMore(q: Queues, ids: seq<JobId>, i: nat)
    requires i < |ids|
    ensures RPush(Ack(Requeued(q, ids[..i]), ids[i]), Default, ids[i]) == Requeued(q, ids[..i + 1])
  {
    assert ids[..i + 1] == ids[..i] + [ids[i]];
    assert DropLast(ids[..i + 1]) == ids[..i];
    assert q.normal + ids[..i] + [ids[i]] == q.normal + ids[..i + 1];
  }

  lemma PushedOneMore(q: Queues, ids: seq<JobId>, i: nat)
    requires i < |ids|
    ensures LPush(Pushed(q, ids[..i]), Default, ids[i]) == Pushed(q, ids[..i + 1])
  {
    MovedOneMore(ids, i, q.normal, q.scheduled);
  }

  lemma {:induction false} RequeueTrace(cfg: Config, s: System, steps: seq<Step>, base: System, q: Queues,
                                        ids: seq<JobId>, i: nat)
    returns (more: seq<Step>)
    requires i <= |ids| && Owes(cfg, s, steps, base, Requeued(q, ids[..i]), Unprocess, ids[i..])
    ensures Owes(cfg, s, more, base, Requeued(q, ids), Unprocess, [])
    decreases |ids| - i
  {
    if i == |ids| {
      assert ids[..i] == ids && ids[i..] == [];
      more := steps;
    } else {
      RequeuedOneMore(q, ids, i);
      assert ids[i..][0] == ids[i] && ids[i..][1..] == ids[i + 1..];
      more := RequeueOne(cfg, s, steps, base, Requeued(q, ids[..i]), ids[i..]);
      more := RequeueTrace(cfg, s, more, base, q, ids, i + 1);
    }
  }

  /** The lists after each of the ids has taken the route. */
  ghost function Delivered(base: System, q: Queues, route: Route, ids: seq<JobId>): Queues {
    if ids == [] then q
    else PushStep(base.(queues := Delivered(base, q, route, DropLast(ids))), route, Last(ids)).queues
  }

  lemma DeliveredOneMore(base: System, q: Queues, route: Route, ids: seq<JobId>, i: nat)
    requires i < |ids|
    ensures Delivered(base, q, route, ids[..i + 1])
         == PushStep(base.(queues := Delivered(base, q, route, ids[..i])), route, ids[i]).queues
  {
    assert DropLast(ids[..i + 1]) == ids[..i] && Last(ids[..i + 1]) == ids[i];
  }

  lemma {:induction false} PushTrace(cfg: Config, s: System, steps: seq<Step>, base: System, q: Queues, route: Route,
                                     ids: seq<JobId>, i: nat)
    returns (more: seq<Step>)
    requires i <= |ids| && route != Unprocess
             && Owes(cfg, s, steps, base, Delivered(base, q, route, ids[..i]), route, ids[i..])
    ensures Owes(cfg, s, more, base, Delivered(base, q, route, ids), route, [])
    decreases |ids| - i
  {
    if i == |ids| {
      assert ids[..i] == ids && ids[i..] == [];
      more := steps;
    } else {
      DeliveredOneMore(base, q, route, ids, i);
      assert ids[i..][0] == ids[i] && ids[i..][1..] == ids[i + 1..];
      PushOne(cfg, s, steps, base, Delivered(base, q, route, ids[..i]), route, ids[i..]);
      more := PushTrace(cfg, s, steps + [Daemon(Push(route, ids[i]))], base, q, route, ids, i + 1);
    }
  }

  /** All of it: the daemon pays what it owes and holds nothing afterwards. */
  lemma DeliverTrace(cfg: Config, s: System, steps: seq<Step>, base: System, route: Route, ids: seq<JobId>)
    returns (more: seq<Step>)
    requires route != Unprocess && Owes(cfg, s, steps, base, base.queues, route, ids)
    ensures Reaches(cfg, s, more, base.(queues := Delivered(base, base.queues, route, ids)))
  {
    assert ids[0..] == ids;
    more := PushTrace(cfg, s, steps, base, base.queues, route, ids, 0);
    NothingOwed(base, Delivered(base, base.queues, route, ids), route);
  }

  lemma {:induction false} DeliveredToDefault(base: System, q: Queues, ids: seq<JobId>)
    ensures Delivered(base, q, ToDefault, ids) == Pushed(q, ids)
  {
    if ids != [] {
      DeliveredToDefault(base, q, DropLast(ids));
      PushedOneMore(q, ids, |ids| - 1);
      assert ids[..|ids|] == ids;
    }
  }

  /** The first half of a pass: expire, reclaim, requeue. */
  lemma RecoverTrace(cfg: Config, s: System, reclaimed: seq<JobId>) returns (steps: seq<Step>, t: System)
    requires Lists(reclaimed, StaleJobs(ExpireWorkers(s.tables, cfg.heartbeatTimeout, s.now), cfg.visibilityTimeout,
        s.now))
    ensures Reaches(cfg, s, steps, t)
    ensures t.tables == ReclaimStale(ExpireWorkers(s.tables, cfg.heartbeatTimeout, s.now), cfg.visibilityTimeout, s.now)
    ensures t.queues == Requeued(s.queues, reclaimed) && t.now == s.now && t.hands == s.hands
    ensures t.passMark == t.passReclaim == s.now
  {
    var u;
    steps, u := First(cfg, s, Daemon(Expire));
    ListedOnce(reclaimed, StaleJobs(u.tables, cfg.visibilityTimeout, s.now));
    Next(cfg, s, steps, u, Daemon(Reclaim(ByReaper)));
    var base := Apply(cfg, u, Daemon(Reclaim(ByReaper))).(hands := s.hands);
    steps := steps + [Daemon(Reclaim(ByReaper))];
    assert reclaimed[0..] == reclaimed && Requeued(s.queues, []) == s.queues;
    assert Owes(cfg, s, steps, base, s.queues, Unprocess, reclaimed);
    steps := RequeueTrace(cfg, s, steps, base, s.queues, reclaimed, 0);
    NothingOwed(base, Requeued(s.queues, reclaimed), Unprocess);
    t := base.(queues := Requeued(s.queues, reclaimed));
  }

  /** The second half: due retries become PENDING and are pushed. */
  lemma RetryTrace(cfg: Config, s: System, before: seq<Step>, t: System, retried: seq<JobId>)
    returns (steps: seq<Step>, u: System)
    requires Reaches(cfg, s, before, t) && Lists(retried, DueRetries(t.tables, t.now))
    ensures Reaches(cfg, s, steps, u)
    ensures u.tables == ReclaimDueRetries(t.tables, t.now)
    ensures u.queues == Pushed(t.queues, retried) && u.hands == t.hands
    ensures u.passMark == t.passMark && u.passReclaim == t.passReclaim
  {
    ListedOnce(retried, DueRetries(t.tables, t.now));
    Next(cfg, s, before, t, Daemon(PromoteRetries(ByReaper)));
    var base := Apply(cfg, t, Daemon(PromoteRetries(ByReaper))).(hands := t.hands);
    steps := before + [Daemon(PromoteRetries(ByReaper))];
    assert Owes(cfg, s, steps, base, base.queues, ToDefault, retried);
    steps := DeliverTrace(cfg, s, steps, base, ToDefault, retried);
    DeliveredToDefault(base, t.queues, retried);
    u := base.(queues := Pushed(t.queues, retried));
  }

  lemma SameRowsAreDue(t: Tables, heartbeatTimeout: Time, visibilityTimeout: Time, now: Time)
    ensures StaleJobs(ExpireWorkers(t, heartbeatTimeout, now), visibilityTimeout, now)
         == set id | id in t.jobs && Stranded(t, id, heartbeatTimeout, visibilityTimeout, now)
    ensures DueRetries(ReclaimStale(ExpireWorkers(t, heartbeatTimeout, now), visibilityTimeout, now), now)
         == DueRetries(t, now)
  {}

  /** What Reaper.RunOnce leaves behind is where this run of the protocol ends, with every push done. */
  lemma PassTrace(cfg: Config, s: System, reclaimed: seq<JobId>, retried: seq<JobId>)
    returns (steps: seq<Step>, u: System)
    requires Lists(reclaimed, set id | id in s.tables.jobs
             && Stranded(s.tables, id, cfg.heartbeatTimeout, cfg.visibilityTimeout, s.now))
    requires Lists(retried, DueRetries(s.tables, s.now))
    ensures Reaches(cfg, s, steps, u)
    ensures u.tables == Pass(s.tables, cfg.heartbeatTimeout, cfg.visibilityTimeout, s.now)
    ensures u.queues == Pushed(Requeued(s.queues, reclaimed), retried)
    ensures u.hands == s.hands && u.passMark == u.passReclaim == s.now
  {
    SameRowsAreDue(s.tables, cfg.heartbeatTimeout, cfg.visibilityTimeout, s.now);
    var t;
    steps, t := RecoverTrace(cfg, s, reclaimed);
    steps, u := RetryTrace(cfg, s, steps, t, retried);
  }

  // ---- The reaper ----

  class Reaper {
    const visibilityTimeout: Time
    const heartbeatTimeout: Time

    constructor (cfg: Config)
      ensures visibilityTimeout == cfg.visibilityTimeout && heartbeatTimeout == cfg.heartbeatTimeout
    {
      visibilityTimeout, heartbeatTimeout := cfg.visibilityTimeout, cfg.heartbeatTimeout;
    }

    method RunOnce(db: Database, redis: Redis, now: Time) returns (reclaimed: seq<JobId>, ghost retried: seq<JobId>)
      modifies db, redis
      ensures db.Rows() == Pass(old(db.Rows()), heartbeatTimeout, visibilityTimeout, now)
      ensures Lists(reclaimed, set id | id in old(db.jobs)
              && Stranded(old(db.Rows()), id, heartbeatTimeout, visibilityTimeout, now))
      ensures Lists(retried, DueRetries(old(db.Rows()), now))
      // due retries wait behind everything, reclaimed jobs are next to be popped
      ensures redis.normal == Reverse(retried) + old(redis.normal) + reclaimed
      ensures redis.processing == RemoveEach(old(redis.processing), reclaimed)
      ensures redis.high == old(redis.high) && redis.low == old(redis.low) && redis.scheduled == old(redis.scheduled)
    {
      SameRowsAreDue(db.Rows(), heartbeatTimeout, visibilityTimeout, now);
      var dead := db.MarkExpiredWorkersDead(heartbeatTimeout, now);
      reclaimed := db.ReclaimStaleJobs(visibilityTimeout, now);
      RequeueRows(redis, reclaimed);
      var due := db.ReclaimDueRetryJobs(now);
      PushRows(redis, due);
      retried := due;
      assert Reverse(due) + (old(redis.normal) + reclaimed) == Reverse(due) + old(redis.normal) + reclaimed;
    }

    /** The loop over reclaimed rows: requeue_job for each. */
    method RequeueRows(redis: Redis, ids: seq<JobId>)
      modifies redis
      ensures redis.Entries() == Requeued(old(redis.Entries()), ids)
    {
      for i := 0 to |ids|
        invariant redis.Entries() == Requeued(old(redis.Entries()), ids[..i])
      {
        RequeuedOneMore(old(redis.Entries()), ids, i);
        redis.RequeueJob(ids[i]);
      }
      assert ids[..|ids|] == ids;
    }

    /** The loop over due retries: LPUSH onto the default queue, whatever the priority of the job. */
    method PushRows(redis: Redis, ids: seq<JobId>)
      modifies redis
      ensures redis.Entries() == Pushed(old(redis.Entries()), ids)
    {
      for i := 0 to |ids|
        invariant redis.Entries() == Pushed(old(redis.Entries()), ids[..i])
      {
        PushedOneMore(old(redis.Entries()), ids, i);
        redis.PushLeft(Default, ids[i]);
      }
      assert ids[..|ids|] == ids;
    }
  }
}
