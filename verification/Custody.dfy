/**
 No job is silently lost. Nothing here assumes an accurate failure detector: workers may outlive their locks,
 references may be duplicated, and pushes may interleave with anything.
 */
module Custody {
  import opened Domain
  import opened Tables
  import opened Queues
  import opened Protocol
  import opened Frames

  // ---- References ----

  predicate Queued(q: Queues, id: JobId) {
    id in q.high || id in q.normal || id in q.low || id in q.scheduled
  }

  /** The worker in this phase still owes the job a lock attempt, or its first entry in the scheduled set. */
  predicate Carries(phase: Phase, id: JobId) {
    match phase
    case Carrying(x) => x == id
    case Reserved(x) => x == id
    case Announcing(_, next) => next == id
    case _ => false
  }

  predicate CarriedBy(s: System, w: WorkerId, id: JobId) {
    w in s.procs && s.procs[w].live && Carries(s.procs[w].phase, id)
  }

  ghost predicate Carried(s: System, id: JobId) {
    exists w :: CarriedBy(s, w, id)
  }

  ghost predicate Referenced(s: System, id: JobId) {
    Queued(s.queues, id) || s.hands.Count(id) > 0 || Carried(s, id)
  }

  /** RUNNING exactly while both lock columns are set; a RETRYING row knows when it is due. */
  predicate LocksMatch(row: Job) {
    && (row.status == Running <==> row.lockedBy.Some?)
    && (row.status == Running <==> row.lockedAt.Some?)
    && (row.status == Retrying ==> row.nextRetryAt.Some?)
  }

  /** A job that still has to run can be found by somebody. */
  ghost predicate Kept(s: System, id: JobId) {
    id in s.tables.jobs ==>
      LocksMatch(s.tables.jobs[id]) && (s.tables.jobs[id].status == Pending ==> Referenced(s, id))
  }

  ghost predicate NothingLost(s: System) {
    forall id :: id in s.tables.jobs ==> Kept(s, id)
  }

  // ---- Steps that take a reference away without replacing it ----

  /** Held by a live worker other than w. */
  ghost predicate CarriedElsewhere(s: System, w: WorkerId, id: JobId) {
    exists v :: v != w && CarriedBy(s, v, id)
  }

  /** The step destroys the last reference to a job that still has to run. */
  ghost predicate Drops(s: System, step: Step, id: JobId) {
    && id in s.tables.jobs && s.tables.jobs[id].status == Pending
    && match step
       case Work(w, Crash) =>
         !Queued(s.queues, id) && s.hands.Count(id) == 0 && !CarriedElsewhere(s, w, id)
       case Client(Remove(x, place)) =>
         x == id && !Queued(Sweep(s.queues, place, id), id) && s.hands.Count(id) == 0 && !Carried(s, id)
       case Env(Flush) => s.hands.Count(id) == 0 && !Carried(s, id)
       case Env(DropPush(_, x)) => x == id && !Queued(s.queues, id) && s.hands.Count(id) == 1 && !Carried(s, id)
       case _ => false
  }

  // ---- Queue operations keep everything but what they say they take ----

  lemma PopKeeps(s: seq<JobId>, id: JobId)
    requires s != []
    ensures id in s <==> id in DropLast(s) || id == Last(s)
  {
    assert s == DropLast(s) + [Last(s)];
  }

  lemma RemoveAllKeeps(s: seq<JobId>, x: JobId, id: JobId)
    ensures id in RemoveAll(s, x) <==> id in s && id != x
  {
    assert Occurrences(RemoveAll(s, x), id) == if id == x then 0 else Occurrences(s, id);
  }

  lemma SweepAllKeeps(q: Queues, x: JobId, id: JobId)
    ensures Queued(SweepAll(q, x), id) <==> Queued(q, id) && id != x
  {
    RemoveAllKeeps(q.normal, x, id);
    RemoveAllKeeps(q.high, x, id);
    RemoveAllKeeps(q.low, x, id);
  }

  lemma SweepKeeps(q: Queues, place: Place, x: JobId, id: JobId)
    requires id != x
    ensures Queued(Sweep(q, place, x), id) <==> Queued(q, id)
  {
    match place
    case Waiting(tier) => RemoveAllKeeps(q.Lane(tier), x, id);
    case Calendar =>
  }

  lemma PromoteKeeps(q: Queues, now: Time, id: JobId)
    ensures Queued(Promote(q, now), id) <==> Queued(q, id)
    ensures id in Promote(q, now).normal <==> id in q.normal || Due(q.scheduled, id, now)
  {
    var due := DueOrder(q.scheduled, now);
    assert Occurrences(Reverse(due), id) == Occurrences(due, id);
  }

  // ---- One step ----

  lemma StillCarried(s: System, s': System, id: JobId, w: WorkerId)
    requires Carried(s, id) && !CarriedBy(s, w, id)
    requires forall v :: v != w && v in s.procs ==> v in s'.procs && s'.procs[v] == s.procs[v]
    ensures Carried(s', id)
  {
    var v :| CarriedBy(s, v, id);
    assert CarriedBy(s', v, id);
  }

  /** A worker step that touches its own process only, and neither its reference nor the rows. */
  lemma SameReferences(s: System, s': System, id: JobId, w: WorkerId)
    requires Referenced(s, id) && s'.hands == s.hands
    requires Queued(s.queues, id) ==> Queued(s'.queues, id) || CarriedBy(s', w, id)
    requires CarriedBy(s, w, id) ==> CarriedBy(s', w, id) || Queued(s'.queues, id)
    requires forall v :: v != w && v in s.procs ==> v in s'.procs && s'.procs[v] == s.procs[v]
    ensures Referenced(s', id)
  {
    if Carried(s, id) && !CarriedBy(s, w, id) {
      StillCarried(s, s', id, w);
    }
  }

  predicate Reserving(act: WorkerAct) {
    act.Register? || act.Beat? || act.Quit? || act.ReserveFrom? || act.BlockOn? || act.StashIt? || act.AckIt?
  }

  /** What the worker does leaves the job in a list or in its own hands. */
  ghost predicate KeepsHold(s: System, s': System, w: WorkerId, id: JobId) {
    && (Queued(s.queues, id) ==> Queued(s'.queues, id) || CarriedBy(s', w, id))
    && (CarriedBy(s, w, id) ==> CarriedBy(s', w, id) || Queued(s'.queues, id))
  }

  lemma FetchKeepsHold(cfg: Config, s: System, w: WorkerId, act: WorkerAct, id: JobId)
    requires WorkEnabled(cfg, s, w, act) && (act.ReserveFrom? || act.BlockOn?)
    ensures KeepsHold(s, Work1(cfg, s, w, act), w, id)
  {
    PopKeeps(s.queues.Lane(act.tier), id);
  }

  lemma RestKeepsHold(cfg: Config, s: System, w: WorkerId, act: WorkerAct, id: JobId)
    requires WorkEnabled(cfg, s, w, act)
    requires act.Register? || act.Beat? || act.Quit? || act.StashIt? || act.AckIt?
    ensures KeepsHold(s, Work1(cfg, s, w, act), w, id)
  {}

  lemma ReservingKeeps(cfg: Config, s: System, w: WorkerId, act: WorkerAct, id: JobId)
    requires WorkEnabled(cfg, s, w, act) && Reserving(act)
    requires Kept(s, id)
    ensures Kept(Work1(cfg, s, w, act), id)
  {
    QuietWorkKeepsRows(cfg, s, w, act);
    WorkMovesOneProcess(cfg, s, w, act);
    if act.ReserveFrom? || act.BlockOn? {
      FetchKeepsHold(cfg, s, w, act, id);
    } else {
      RestKeepsHold(cfg, s, w, act, id);
    }
    if id in s.tables.jobs && s.tables.jobs[id].status == Pending {
      SameReferences(s, Work1(cfg, s, w, act), id, w);
    }
  }

  lemma LockKeeps(s: System, w: WorkerId, job: JobId, id: JobId)
    requires Alert(s, w) && s.procs[w].phase == Reserved(job)
    requires Kept(s, id)
    ensures Kept(LockStep(s, w, job), id)
  {
    var s' := LockStep(s, w, job);
    if id in s.tables.jobs && s.tables.jobs[id].status == Pending && id != job {
      SameReferences(s, s', id, w);
    }
  }

  lemma OutcomeKeeps(cfg: Config, s: System, w: WorkerId, act: WorkerAct, id: JobId)
    requires WorkEnabled(cfg, s, w, act) && (act.Succeed? || act.Fail? || act.SkipSuccession?)
    requires Kept(s, id)
    ensures Kept(Work1(cfg, s, w, act), id)
  {
    var s' := Work1(cfg, s, w, act);
    if id in s.tables.jobs && s.tables.jobs[id].status == Pending {
      SameReferences(s, s', id, w);
    }
  }

  lemma SuccessionKeeps(cfg: Config, s: System, w: WorkerId, act: WorkerAct, id: JobId)
    requires WorkEnabled(cfg, s, w, act) && (act.Succession? || act.Announce?)
    requires Kept(s, id)
    ensures Kept(Work1(cfg, s, w, act), id)
  {
    var s' := Work1(cfg, s, w, act);
    if id in s.tables.jobs {
      if s.tables.jobs[id].status == Pending {
        SameReferences(s, s', id, w);
      }
    } else if id in s'.tables.jobs {
      assert CarriedBy(s', w, id);
    }
  }

  lemma CrashKeeps(cfg: Config, s: System, w: WorkerId, id: JobId)
    requires WorkEnabled(cfg, s, w, Crash) && Kept(s, id) && id in s.tables.jobs
    ensures Kept(Work1(cfg, s, w, Crash), id) <==> !Drops(s, Work(w, Crash), id)
  {
    var s' := Work1(cfg, s, w, Crash);
    assert !CarriedBy(s', w, id);
    assert forall v :: v != w ==> (CarriedBy(s', v, id) <==> CarriedBy(s, v, id));
    assert Carried(s', id) <==> CarriedElsewhere(s, w, id);
  }

  lemma WorkKeeps(cfg: Config, s: System, w: WorkerId, act: WorkerAct, id: JobId)
    requires WorkEnabled(cfg, s, w, act) && Kept(s, id) && !act.Crash?
    ensures Kept(Work1(cfg, s, w, act), id)
  {
    if Reserving(act) {
      ReservingKeeps(cfg, s, w, act, id);
    } else if act.LockIt? {
      LockKeeps(s, w, s.procs[w].phase.id, id);
    } else if act.Succession? || act.Announce? {
      SuccessionKeeps(cfg, s, w, act, id);
    } else {
      OutcomeKeeps(cfg, s, w, act, id);
    }
  }

  lemma SameProcs(s: System, s': System, id: JobId)
    requires s'.procs == s.procs
    ensures Carried(s', id) <==> Carried(s, id)
  {
    assert forall w :: CarriedBy(s', w, id) <==> CarriedBy(s, w, id);
  }

  lemma ReclaimKeeps(cfg: Config, s: System, via: Reclaimer, id: JobId)
    requires Kept(s, id)
    ensures Kept(ReclaimStep(cfg, s, via), id)
  {
    var s' := ReclaimStep(cfg, s, via);
    SameProcs(s, s', id);
    assert id in StaleJobs(s.tables, cfg.visibilityTimeout, s.now) ==> s'.hands.Count(id) > 0;
    assert s'.hands.Count(id) >= s.hands.Count(id);
  }

  lemma PromoteRetriesKeeps(cfg: Config, s: System, via: Reclaimer, id: JobId)
    requires Kept(s, id)
    ensures Kept(Daemon1(cfg, s, PromoteRetries(via)), id)
  {
    var s' := Daemon1(cfg, s, PromoteRetries(via));
    SameProcs(s, s', id);
    assert id in DueRetries(s.tables, s.now) ==> s'.hands.Count(id) > 0;
    assert s'.hands.Count(id) >= s.hands.Count(id);
  }

  lemma PushKeeps(s: System, route: Route, x: JobId, id: JobId)
    requires x in s.hands.On(route) && Kept(s, id)
    ensures Kept(PushStep(s, route, x), id)
  {
    var s' := PushStep(s, route, x);
    SameProcs(s, s', id);
    TakeCounts(s.hands, route, x, id);
    if route == Unprocess {
      PutCounts(s.hands.Take(route, x), GiveBack, multiset{x}, id);
    }
    PushQueues(s, route, x, id);
  }

  lemma PushQueues(s: System, route: Route, x: JobId, id: JobId)
    ensures Queued(s.queues, id) ==> Queued(PushStep(s, route, x).queues, id)
    ensures route != Unprocess ==> Queued(PushStep(s, route, x).queues, x)
  {}

  lemma DaemonKeeps(cfg: Config, s: System, act: DaemonAct, id: JobId)
    requires DaemonEnabled(s, act) && Kept(s, id)
    ensures Kept(Daemon1(cfg, s, act), id)
  {
    match act
    case Reclaim(via) => ReclaimKeeps(cfg, s, via, id);
    case PromoteRetries(via) => PromoteRetriesKeeps(cfg, s, via, id);
    case Push(route, x) => PushKeeps(s, route, x, id);
    case _ =>
      SameProcs(s, Daemon1(cfg, s, act), id);
      PromoteKeeps(s.queues, s.now, id);
  }

  lemma ClientKeeps(cfg: Config, s: System, act: ClientAct, id: JobId)
    requires ClientEnabled(cfg, s, act) && Kept(s, id) && !act.Remove?
    ensures Kept(Client1(cfg, s, act), id)
  {
    if act.Cancel? || act.CancelRow? {
      CancelKeeps(cfg, s, act, id);
    } else {
      SameProcs(s, Client1(cfg, s, act), id);
    }
  }

  lemma CancelKeeps(cfg: Config, s: System, act: ClientAct, id: JobId)
    requires ClientEnabled(cfg, s, act) && Kept(s, id) && (act.Cancel? || act.CancelRow?)
    ensures Kept(Client1(cfg, s, act), id)
  {
    SameProcs(s, Client1(cfg, s, act), id);
    if id in s.tables.jobs {
      CancelKeepsRow(s.tables, act.id, id);
    }
    SweepAllKeeps(s.queues, act.id, id);
  }

  /** What is still PENDING after the cancellation is another job, and was so before. */
  lemma CancelKeepsRow(t: Tables, x: JobId, id: JobId)
    requires id in t.jobs && LocksMatch(t.jobs[id])
    ensures id in CancelJob(t, x).jobs && LocksMatch(CancelJob(t, x).jobs[id])
    ensures CancelJob(t, x).jobs[id].status == Pending ==> id != x && t.jobs[id].status == Pending
  {}

  lemma RemoveKeeps(cfg: Config, s: System, x: JobId, place: Place, id: JobId)
    requires ClientEnabled(cfg, s, Remove(x, place)) && Kept(s, id) && id in s.tables.jobs
    ensures Kept(Client1(cfg, s, Remove(x, place)), id) <==> !Drops(s, Client(Remove(x, place)), id)
  {
    SameProcs(s, Client1(cfg, s, Remove(x, place)), id);
    if x != id {
      SweepKeeps(s.queues, place, x, id);
    }
  }

  lemma FlushKeeps(s: System, id: JobId)
    requires Kept(s, id) && id in s.tables.jobs
    ensures Kept(Env1(s, Flush), id) <==> !Drops(s, Env(Flush), id)
  {
    SameProcs(s, Env1(s, Flush), id);
  }

  lemma DropPushKeeps(s: System, route: Route, x: JobId, id: JobId)
    requires x in s.hands.On(route) && Kept(s, id) && id in s.tables.jobs
    ensures Kept(Env1(s, DropPush(route, x)), id) <==> !Drops(s, Env(DropPush(route, x)), id)
  {
    SameProcs(s, Env1(s, DropPush(route, x)), id);
    TakeCounts(s.hands, route, x, id);
  }

  lemma EnvKeeps(s: System, act: EnvAct, id: JobId)
    requires EnvEnabled(s, act) && Kept(s, id) && id in s.tables.jobs
    ensures Kept(Env1(s, act), id) <==> !Drops(s, Env(act), id)
  {
    match act
    case Tick(_) => SameProcs(s, Env1(s, act), id);
    case Flush => FlushKeeps(s, id);
    case DropPush(route, x) => DropPushKeeps(s, route, x, id);
  }

  lemma StepKeeps(cfg: Config, s: System, step: Step, id: JobId)
    requires Enabled(cfg, s, step) && Kept(s, id)
    ensures id in s.tables.jobs ==> (Kept(Apply(cfg, s, step), id) <==> !Drops(s, step, id))
    ensures id !in s.tables.jobs ==> Kept(Apply(cfg, s, step), id)
  {
    match step
    case Work(w, act) =>
      if act.Crash? {
        if id in s.tables.jobs { CrashKeeps(cfg, s, w, id); }
      } else {
        WorkKeeps(cfg, s, w, act, id);
      }
    case Daemon(act) => DaemonKeeps(cfg, s, act, id);
    case Client(act) =>
      if act.Remove? {
        if id in s.tables.jobs { RemoveKeeps(cfg, s, act.id, act.place, id); }
      } else {
        ClientKeeps(cfg, s, act, id);
      }
    case Env(act) =>
      if id in s.tables.jobs { EnvKeeps(s, act, id); }
  }

  /** From a state where nothing is lost, a step loses a job exactly when it destroys a last reference. */
  lemma LostExactlyWhenDropped(cfg: Config, s: System, step: Step)
    requires Enabled(cfg, s, step) && NothingLost(s)
    ensures NothingLost(Apply(cfg, s, step)) <==> forall id :: id in s.tables.jobs ==> !Drops(s, step, id)
  {
    var s' := Apply(cfg, s, step);
    forall id ensures id in s.tables.jobs ==> (Kept(s', id) <==> !Drops(s, step, id)) {
      StepKeeps(cfg, s, step, id);
      RowsPersist(cfg, s, step, id);
    }
    forall id | id !in s.tables.jobs ensures Kept(s', id) {
      StepKeeps(cfg, s, step, id);
    }
    forall id | id in s.tables.jobs ensures id in s'.tables.jobs {
      RowsPersist(cfg, s, step, id);
    }
  }

  // ---- Whole runs ----

  /** Leaves out the failures the design does not claim to survive. */
  predicate Survivable(s: System, step: Step) {
    match step
    case Work(w, Crash) =>
      w in s.procs ==> !s.procs[w].phase.Carrying? && !s.procs[w].phase.Reserved? && !s.procs[w].phase.Announcing?
    case Client(Remove(_, _)) => false
    case Env(Flush) => false
    case Env(DropPush(_, _)) => false
    case _ => true
  }

  lemma SurvivableDropsNothing(cfg: Config, s: System, step: Step, id: JobId)
    requires Enabled(cfg, s, step) && Survivable(s, step) && NothingLost(s) && id in s.tables.jobs
    ensures !Drops(s, step, id)
  {
    assert Kept(s, id);
    if step.Work? && step.act.Crash? && Carried(s, id) {
      var v :| CarriedBy(s, v, id);
      assert v != step.w;
    }
  }

  lemma {:induction false} NeverLost(cfg: Config, ss: seq<System>, steps: seq<Step>, n: nat)
    requires Run(cfg, ss, steps) && Initial(ss[0]) && n < |ss|
    requires forall i {:trigger steps[i]} :: 0 <= i < n ==> Survivable(ss[i], steps[i])
    ensures NothingLost(ss[n])
  {
    if n > 0 {
      NeverLost(cfg, ss, steps, n - 1);
      var s, step := ss[n - 1], steps[n - 1];
      forall id | id in s.tables.jobs ensures !Drops(s, step, id) {
        SurvivableDropsNothing(cfg, s, step, id);
      }
      LostExactlyWhenDropped(cfg, s, step);
    }
  }

  // ---- The lock columns, in every run ----

  predicate LocksAt(s: System, id: JobId) {
    id in s.tables.jobs ==> LocksMatch(s.tables.jobs[id])
  }

  lemma WriteLocks(cfg: Config, s: System, w: WorkerId, act: WorkerAct)
    requires WorkEnabled(cfg, s, w, act) && WritesRow(act) && LocksAt(s, s.procs[w].phase.id)
    ensures LocksAt(Work1(cfg, s, w, act), s.procs[w].phase.id)
  {}

  lemma SuccessionLocks(cfg: Config, s: System, w: WorkerId, act: WorkerAct, id: JobId)
    requires WorkEnabled(cfg, s, w, act) && act.Succession? && LocksAt(s, id)
    ensures LocksAt(Work1(cfg, s, w, act), id)
  {}

  lemma WorkLocks(cfg: Config, s: System, w: WorkerId, act: WorkerAct, id: JobId)
    requires WorkEnabled(cfg, s, w, act) && LocksAt(s, id)
    ensures LocksAt(Work1(cfg, s, w, act), id)
  {
    if act.Succession? {
      SuccessionLocks(cfg, s, w, act, id);
    } else if !WritesRow(act) {
      QuietWorkKeepsRows(cfg, s, w, act);
    } else if s.procs[w].phase.id != id {
      WriteKeepsOthers(cfg, s, w, act, id);
    } else {
      WriteLocks(cfg, s, w, act);
    }
  }

  lemma DaemonLocks(cfg: Config, s: System, act: DaemonAct, id: JobId)
    requires DaemonEnabled(s, act) && LocksAt(s, id)
    ensures LocksAt(Daemon1(cfg, s, act), id)
  {}

  lemma ClientLocks(cfg: Config, s: System, act: ClientAct, id: JobId)
    requires ClientEnabled(cfg, s, act) && LocksAt(s, id)
    ensures LocksAt(Client1(cfg, s, act), id)
  {}

  lemma StepLocks(cfg: Config, s: System, step: Step, id: JobId)
    requires Enabled(cfg, s, step) && LocksAt(s, id)
    ensures LocksAt(Apply(cfg, s, step), id)
  {
    match step
    case Work(w, act) => WorkLocks(cfg, s, w, act, id);
    case Daemon(act) => DaemonLocks(cfg, s, act, id);
    case Client(act) => ClientLocks(cfg, s, act, id);
    case Env(act) =>
  }

  /** Zombies, resync and losses included: RUNNING exactly while both lock columns are set. */
  lemma {:induction false} LocksAlwaysMatch(cfg: Config, ss: seq<System>, steps: seq<Step>, n: nat, id: JobId)
    requires Run(cfg, ss, steps) && Initial(ss[0]) && n < |ss|
    ensures LocksAt(ss[n], id)
  {
    if n > 0 {
      LocksAlwaysMatch(cfg, ss, steps, n - 1, id);
      StepLocks(cfg, ss[n - 1], steps[n - 1], id);
    }
  }
}
