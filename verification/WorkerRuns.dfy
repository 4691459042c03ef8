/** The worker's code as runs of the protocol: one reservation, one job, and the whole main loop. */
module WorkerRuns {
  import opened Domain
  import opened Tables
  import opened Queues
  import opened Protocol
  import opened Traces
  import opened Workers
  import Ordering

  // ---- One job ----

  lemma LockTrace(cfg: Config, s: System, w: WorkerId, id: JobId, k: nat, endTime: Time)
    returns (steps: seq<Step>, t: System)
    requires w in s.procs && s.procs[w] == Proc(true, Reserved(id), k) && endTime >= s.now
    ensures Reaches(cfg, s, steps, t) && t.tables == FetchAndLock(s.tables, id, w, s.now) && t.queues == s.queues
    ensures t.now == if Lockable(s.tables, id) then endTime else s.now
    ensures t.procs == s.procs[w := Proc(true, if Lockable(s.tables, id) then Executing(id,
        s.tables.jobs[id].attempts + 1, s.now)
                                               else Settled(id), k)]
  {
    steps, t := First(cfg, s, Work(w, LockIt));
    if Lockable(s.tables, id) {
      steps, t := OneMore(cfg, s, steps, t, Env(Tick(endTime)));
    }
  }

  lemma SucceedTrace(cfg: Config, s: System, before: seq<Step>, t: System, w: WorkerId, id: JobId,
                     result: Option<string>)
    returns (steps: seq<Step>, u: System)
    requires Reaches(cfg, s, before, t) && w in t.procs && t.procs[w].live
    requires t.procs[w].phase.Executing? && t.procs[w].phase.id == id && id in t.tables.jobs
    ensures Reaches(cfg, s, steps, u)
    ensures u.tables == MarkSuccess(t.tables, id, result) && u.queues == t.queues && u.now == t.now
    ensures u.procs == t.procs[w := Proc(true,
        if Recurring(t.tables.jobs[id].spec) then Finishing(id) else Settled(id), t.procs[w].processed + 1)]
  {
    steps, u := OneMore(cfg, s, before, t, Work(w, Succeed(result)));
  }

  lemma SuccessionTrace(cfg: Config, s: System, before: seq<Step>, t: System, w: WorkerId, id: JobId, added: JobId)
    returns (steps: seq<Step>, u: System)
    requires Reaches(cfg, s, before, t) && w in t.procs && t.procs[w] == Proc(true, Finishing(id), t.procs[w].processed)
    requires id in t.tables.jobs && Recurring(t.tables.jobs[id].spec) && added !in t.tables.jobs
    ensures var spec := t.tables.jobs[id].spec;
            var next := Successor(spec, t.now, cfg.cron);
            && Reaches(cfg, s, steps, u)
            && u.tables == (if next.Some? then InsertJob(t.tables, added, spec, next) else t.tables)
            && u.queues == WithSuccessor(t.queues, spec, t.now, added, cfg.cron)
            && u.procs == t.procs[w := Proc(true, Settled(id), t.procs[w].processed)] && u.now == t.now
  {
    if Successor(t.tables.jobs[id].spec, t.now, cfg.cron).Some? {
      steps, u := OneMore(cfg, s, before, t, Work(w, Succession(added)));
      steps, u := OneMore(cfg, s, steps, u, Work(w, Announce));
    } else {
      steps, u := OneMore(cfg, s, before, t, Work(w, SkipSuccession));
    }
  }

  lemma ReturnTrace(cfg: Config, s: System, before: seq<Step>, t: System, w: WorkerId, id: JobId,
                    result: Option<string>, added: JobId)
    returns (steps: seq<Step>, u: System)
    requires Reaches(cfg, s, before, t) && w in t.procs && t.procs[w].live
    requires t.procs[w].phase.Executing? && t.procs[w].phase.id == id && id in t.tables.jobs && added !in t.tables.jobs
    ensures Reaches(cfg, s, steps, u)
    ensures u.tables == AfterReturn(t.tables, id, result, t.now, added, cfg.cron)
    ensures u.queues == WithSuccessor(t.queues, t.tables.jobs[id].spec, t.now, added, cfg.cron)
    ensures u.procs == t.procs[w := Proc(true, Settled(id), t.procs[w].processed + 1)] && u.now == t.now
  {
    steps, u := SucceedTrace(cfg, s, before, t, w, id, result);
    if Recurring(t.tables.jobs[id].spec) {
      steps, u := SuccessionTrace(cfg, s, steps, u, w, id, added);
    }
  }

  lemma FailIsRaise(t: System, w: WorkerId, id: JobId, attempt: nat, error: string, draw: real, added: LetterId)
    requires w in t.procs && id in t.tables.jobs
    ensures var u := FailStep(t, w, id, attempt, error, draw, added);
            && u.tables == AfterRaise(t.tables, id, error, attempt, draw, t.now, added) && u.queues == t.queues
            && u.procs == Protocol.Done(t, w, Settled(id))
  {}

  lemma RaiseTrace(cfg: Config, s: System, before: seq<Step>, t: System, w: WorkerId, id: JobId, error: string,
                   draw: real, added: LetterId)
    returns (steps: seq<Step>, u: System)
    requires Reaches(cfg, s, before, t) && w in t.procs && t.procs[w].live && 0.0 <= draw <= 1.0
    requires t.procs[w].phase.Executing? && t.procs[w].phase.id == id && id in t.tables.jobs
             && added !in t.tables.letters
    ensures Reaches(cfg, s, steps, u)
    ensures u.tables == AfterRaise(t.tables, id, error, t.procs[w].phase.attempt, draw, t.now, added)
            && u.queues == t.queues
    ensures u.procs == t.procs[w := Proc(true, Settled(id), t.procs[w].processed + 1)] && u.now == t.now
  {
    FailIsRaise(t, w, id, t.procs[w].phase.attempt, error, draw, added);
    steps, u := OneMore(cfg, s, before, t, Work(w, Fail(error, draw, added)));
  }

  lemma AckTrace(cfg: Config, s: System, before: seq<Step>, t: System, w: WorkerId, id: JobId)
    returns (steps: seq<Step>, u: System)
    requires Reaches(cfg, s, before, t) && w in t.procs && t.procs[w] == Proc(true, Settled(id), t.procs[w].processed)
    ensures Reaches(cfg, s, steps, u) && u.tables == t.tables && u.queues == Ack(t.queues, id)
    ensures u.procs == t.procs[w := Proc(true, Idle, t.procs[w].processed)] && u.now == t.now
  {
    steps, u := OneMore(cfg, s, before, t, Work(w, AckIt));
  }

  /** From the lock to the recorded outcome. */
  lemma AttemptTrace(cfg: Config, s: System, w: WorkerId, id: JobId, visit: Visit, k: nat, added: nat)
    returns (steps: seq<Step>, u: System)
    requires w in s.procs && s.procs[w] == Proc(true, Reserved(id), k) && Lockable(s.tables, id)
    requires s.now == visit.lockTime <= visit.endTime && 0.0 <= visit.draw <= 1.0
    requires added !in s.tables.jobs && added !in s.tables.letters
    ensures Reaches(cfg, s, steps, u) && u.tables == Concluded(s.tables, id, w, visit, added, cfg.cron)
    ensures Ack(u.queues, id) == Announced(s.tables, s.queues, id, visit, added, cfg.cron)
    ensures u.procs == s.procs[w := Proc(true, Settled(id), k + 1)] && u.now == visit.endTime
  {
    var t;
    steps, t := LockTrace(cfg, s, w, id, k, visit.endTime);
    ghost var locked := t.procs[w];
    if visit.outcome.Returned? {
      steps, u := ReturnTrace(cfg, s, steps, t, w, id, visit.outcome.result, added);
    } else {
      steps, u := RaiseTrace(cfg, s, steps, t, w, id, visit.outcome.error, visit.draw, added);
    }
    MapTwice(s.procs, w, locked, u.procs[w]);
  }

  lemma SkipTrace(cfg: Config, s: System, w: WorkerId, id: JobId, visit: Visit, k: nat, added: nat)
    returns (steps: seq<Step>, u: System)
    requires w in s.procs && s.procs[w] == Proc(true, Reserved(id), k) && !Lockable(s.tables, id)
    ensures Reaches(cfg, s, steps, u) && u.tables == Concluded(s.tables, id, w, visit, added, cfg.cron)
    ensures Ack(u.queues, id) == Announced(s.tables, s.queues, id, visit, added, cfg.cron)
    ensures u.procs == s.procs[w := Proc(true, Settled(id), k)] && u.now == s.now
  {
    steps, u := LockTrace(cfg, s, w, id, k, s.now);
  }

  lemma MapTwice(procs: map<WorkerId, Proc>, w: WorkerId, p: Proc, q: Proc)
    ensures procs[w := p][w := q] == procs[w := q]
  {}

  /** What Worker.ProcessJob leaves behind is where this run ends: the worker is idle again. */
  lemma ProcessTrace(cfg: Config, s: System, w: WorkerId, id: JobId, visit: Visit, k: nat, added: nat)
    returns (steps: seq<Step>, u: System)
    requires w in s.procs && s.procs[w] == Proc(true, Reserved(id), k)
    requires s.now == visit.lockTime <= visit.endTime && 0.0 <= visit.draw <= 1.0
    requires added !in s.tables.jobs && added !in s.tables.letters
    ensures Reaches(cfg, s, steps, u)
    ensures u.tables == Concluded(s.tables, id, w, visit, added, cfg.cron)
    ensures u.queues == Announced(s.tables, s.queues, id, visit, added, cfg.cron)
    ensures u.procs == s.procs[w := Proc(true, Idle, if Lockable(s.tables, id) then k + 1 else k)]
            && u.now <= visit.endTime
  {
    var t;
    if Lockable(s.tables, id) {
      steps, t := AttemptTrace(cfg, s, w, id, visit, k, added);
    } else {
      steps, t := SkipTrace(cfg, s, w, id, visit, k, added);
    }
    steps, u := AckTrace(cfg, s, steps, t, w, id);
    MapTwice(s.procs, w, t.procs[w], u.procs[w]);
  }

  // ---- One turn of the main loop ----

  /** The other way to reserve: BRPOP takes the id out of the lists, LPUSH puts it on the processing list. */
  lemma BlockTrace(cfg: Config, s: System, w: WorkerId, k: nat) returns (steps: seq<Step>, u: System)
    requires w in s.procs && s.procs[w] == Proc(true, Idle, k) && Ordering.Poll(s.queues).Some?
    ensures var tier := Ordering.Poll(s.queues).value;
            && s.queues.Lane(tier) != []
            && Reaches(cfg, s, steps, u) && steps == [Work(w, BlockOn(tier)), Work(w, StashIt)]
            && u.tables == s.tables && u.queues == Reserve(s.queues, tier)
            && u.procs == s.procs[w := Proc(true, Reserved(Last(s.queues.Lane(tier))), k)]
  {
    var t;
    steps, t := First(cfg, s, Work(w, BlockOn(Ordering.Poll(s.queues).value)));
    steps, u := OneMore(cfg, s, steps, t, Work(w, StashIt));
    MapTwice(s.procs, w, t.procs[w], u.procs[w]);
  }

  lemma ReserveTrace(cfg: Config, s: System, before: seq<Step>, t: System, w: WorkerId, k: nat)
    returns (steps: seq<Step>, u: System)
    requires Reaches(cfg, s, before, t) && w in t.procs && t.procs[w] == Proc(true, Idle, k)
             && Ordering.Poll(t.queues).Some?
    ensures var tier := Ordering.Poll(t.queues).value;
            && t.queues.Lane(tier) != []
            && Reaches(cfg, s, steps, u) && u.tables == t.tables && u.queues == Reserve(t.queues, tier)
                && u.now == t.now
            && u.procs == t.procs[w := Proc(true, Reserved(Last(t.queues.Lane(tier))), k)]
  {
    steps, u := OneMore(cfg, s, before, t, Work(w, ReserveFrom(Ordering.Poll(t.queues).value)));
  }

  /** The clock moves to the turn, and the heartbeat task may get its turn. */
  lemma BeatTrace(cfg: Config, s: System, w: WorkerId, k: nat, visit: Visit) returns (steps: seq<Step>, u: System)
    requires w in s.procs && s.procs[w] == Proc(true, Idle, k) && s.now <= visit.lockTime
    ensures Reaches(cfg, s, steps, u) && u.now == visit.lockTime && u.procs == s.procs && u.queues == s.queues
    ensures u.tables == WithBeat(s.tables, w, visit, k)
  {
    steps, u := First(cfg, s, Env(Tick(visit.lockTime)));
    if visit.beat {
      steps, u := OneMore(cfg, s, steps, u, Work(w, Beat));
    }
  }

  ghost predicate OpenFor(s: System, w: WorkerId, visit: Visit) {
    s.now <= visit.lockTime <= visit.endTime && 0.0 <= visit.draw <= 1.0
  }

  function ShiftOf(s: System, k: nat): Shift {
    Shift(Stores(s.tables, s.queues), k)
  }

  /** Reserve the next job and process it. */
  lemma ServeTrace(cfg: Config, t: System, w: WorkerId, k: nat, visit: Visit, added: nat)
    returns (steps: seq<Step>, u: System)
    requires w in t.procs && t.procs[w] == Proc(true, Idle, k) && Unused(t.tables, added)
    requires Ordering.Poll(t.queues).Some? && t.queues.Lane(Ordering.Poll(t.queues).value) != []
    requires t.now == visit.lockTime <= visit.endTime && 0.0 <= visit.draw <= 1.0
    ensures var tier := Ordering.Poll(t.queues).value;
            var id := Last(t.queues.Lane(tier));
            && Reaches(cfg, t, steps, u) && u.now <= visit.endTime
            && u.tables == Concluded(t.tables, id, w, visit, added, cfg.cron)
            && u.queues == Scheduled(t.tables, Pop(t.queues, tier), id, visit, added, cfg.cron)
            && u.procs == t.procs[w := Proc(true, Idle, if Lockable(t.tables, id) then k + 1 else k)]
  {
    ReachesItself(cfg, t);
    var front, v := ReserveTrace(cfg, t, [], t, w, k);
    var back;
    back, u := ProcessTrace(cfg, v, w, Last(t.queues.Lane(Ordering.Poll(t.queues).value)), visit, k, added);
    Through(cfg, t, front, v, back, u);
    steps := front + back;
    MapTwice(t.procs, w, v.procs[w], u.procs[w]);
    AckTakesFirst(t.tables, t.queues, Ordering.Poll(t.queues).value, visit, added, cfg.cron);
  }

  /** The worker is idle again, with this in the stores and on its counter. */
  ghost predicate Stands(s: System, u: System, w: WorkerId, end: Shift) {
    ShiftOf(u, end.processed) == end && u.procs == s.procs[w := Proc(true, Idle, end.processed)]
  }

  lemma BusyTurnTrace(cfg: Config, s: System, w: WorkerId, k: nat, tier: Tier, visit: Visit, added: nat)
    returns (steps: seq<Step>, u: System)
    requires w in s.procs && s.procs[w] == Proc(true, Idle, k) && OpenFor(s, w, visit) && Unused(s.tables, added)
    requires Ordering.Poll(s.queues) == Some(tier) && s.queues.Lane(tier) != []
    ensures Reaches(cfg, s, steps, u) && u.now <= visit.endTime
    ensures Stands(s, u, w, ServedShift(ShiftOf(s, k), w, tier, visit, added, cfg.cron))
  {
    var front, t := BeatTrace(cfg, s, w, k, visit);
    var back;
    back, u := ServeTrace(cfg, t, w, k, visit, added);
    Through(cfg, s, front, t, back, u);
    steps := front + back;
  }

  /** What Worker.TakeTurn leaves behind is where this run ends. */
  lemma TakeTurnTrace(cfg: Config, s: System, w: WorkerId, k: nat, visit: Visit, added: nat)
    returns (steps: seq<Step>, u: System)
    requires w in s.procs && s.procs[w] == Proc(true, Idle, k) && OpenFor(s, w, visit) && Unused(s.tables, added)
    ensures Reaches(cfg, s, steps, u) && u.now <= visit.endTime
    ensures Stands(s, u, w, Visited(ShiftOf(s, k), w, visit, added, cfg.cron))
  {
    var tier := Ordering.Poll(s.queues);
    if tier.Some? {
      steps, u := BusyTurnTrace(cfg, s, w, k, tier.value, visit, added);
    } else {
      steps, u := BeatTrace(cfg, s, w, k, visit);
      assert s.procs[w := s.procs[w]] == s.procs;
    }
  }

  // ---- The main loop ----

  /** The turns come one after the other, none before the worker began. */
  predicate Chronological(began: Time, visits: seq<Visit>) {
    forall i {:trigger visits[i]} :: 0 <= i < |visits| ==>
      && (if i == 0 then began else visits[i - 1].endTime) <= visits[i].lockTime <= visits[i].endTime
      && 0.0 <= visits[i].draw <= 1.0
  }

  function ClosingTime(began: Time, visits: seq<Visit>, n: nat): Time
    requires n <= |visits|
  {
    if n == 0 then began else visits[n - 1].endTime
  }

  lemma NextVisitTrace(cfg: Config, s: System, front: seq<Step>, t: System, w: WorkerId, mid: Shift, visit: Visit,
                       added: nat)
    returns (steps: seq<Step>, u: System)
    requires Reaches(cfg, s, front, t) && w in s.procs && Stands(s, t, w, mid) && OpenFor(t, w, visit)
             && Unused(mid.stores.rows, added)
    ensures Reaches(cfg, s, steps, u) && Stands(s, u, w, Visited(mid, w, visit, added, cfg.cron))
            && u.now <= visit.endTime
  {
    assert t.procs[w] == Proc(true, Idle, mid.processed) && ShiftOf(t, mid.processed) == mid;
    var back;
    back, u := TakeTurnTrace(cfg, t, w, mid.processed, visit, added);
    Through(cfg, s, front, t, back, u);
    steps := front + back;
    MapTwice(s.procs, w, t.procs[w], u.procs[w]);
  }

  lemma {:induction false} VisitsTrace(cfg: Config, s: System, w: WorkerId, k: nat, visits: seq<Visit>, n: nat,
                                       end: Shift)
    returns (steps: seq<Step>, u: System)
    requires w in s.procs && s.procs[w] == Proc(true, Idle, k) && Chronological(s.now, visits)
    requires n <= |visits| && VisitsLead(ShiftOf(s, k), w, visits, n, end, cfg.cron)
    ensures Reaches(cfg, s, steps, u) && u.now <= ClosingTime(s.now, visits, n) && Stands(s, u, w, end)
  {
    if n == 0 {
      steps, u := [], s;
      ReachesItself(cfg, s);
      assert s.procs[w := s.procs[w]] == s.procs;
    } else {
      var mid, added :| VisitsLeadVia(ShiftOf(s, k), w, visits, n, mid, added, end, cfg.cron);
      var front, t := VisitsTrace(cfg, s, w, k, visits, n - 1, mid);
      assert OpenFor(t, w, visits[n - 1]);
      steps, u := NextVisitTrace(cfg, s, front, t, w, mid, visits[n - 1], added);
    }
  }

  /** What Worker.Start leaves behind is where this run ends: register, take the turns, quit. */
  lemma StartTrace(cfg: Config, s: System, w: WorkerId, began: Time, visits: seq<Visit>, n: nat, after: Stores)
    returns (steps: seq<Step>, u: System)
    requires w !in s.procs && w !in s.tables.workers && s.now <= began && Chronological(began, visits) && n <= |visits|
    requires Worked(Stores(s.tables, s.queues), w, began, visits, n, after, cfg.cron)
    ensures Reaches(cfg, s, steps, u) && Stores(u.tables, u.queues) == after
    ensures u.procs.Keys == s.procs.Keys + {w} && !u.procs[w].live && u.procs[w].phase == Idle
  {
    var first := Opened(Stores(s.tables, s.queues), w, began);
    var end :| VisitsLead(first, w, visits, n, end, cfg.cron) && after == Closed(end, w);
    var t;
    steps, t := RegisterTrace(cfg, s, w, began);
    var more, v := VisitsTrace(cfg, t, w, 0, visits, n, end);
    Through(cfg, s, steps, t, more, v);
    steps, u := OneMore(cfg, s, steps + more, v, Work(w, Quit));
  }

  lemma RegisterTrace(cfg: Config, s: System, w: WorkerId, began: Time) returns (steps: seq<Step>, t: System)
    requires w !in s.procs && w !in s.tables.workers && s.now <= began
    ensures Reaches(cfg, s, steps, t) && t.now == began && t.procs == s.procs[w := Proc(true, Idle, 0)]
    ensures ShiftOf(t, 0) == Opened(Stores(s.tables, s.queues), w, began)
  {
    steps, t := First(cfg, s, Env(Tick(began)));
    steps, t := OneMore(cfg, s, steps, t, Work(w, Register));
  }
}
