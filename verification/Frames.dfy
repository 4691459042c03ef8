/** What each kind of step leaves alone, stated once for all the invariants. */
module Frames {
  import opened Domain
  import opened Queues
  import opened Protocol

  // ---- Workers ----

  predicate WritesRow(act: WorkerAct) {
    act.LockIt? || act.Succeed? || act.Fail?
  }

  predicate OneProcessMoved(s: System, s': System, w: WorkerId) {
    && w in s'.procs && s'.procs == s.procs[w := s'.procs[w]]
    && s'.now == s.now && s'.hands == s.hands && s'.removals == s.removals
    && s'.lastMark == s.lastMark && s'.passMark == s.passMark && s'.passReclaim == s.passReclaim
  }

  lemma OutcomeMovesOne(cfg: Config, s: System, w: WorkerId, act: WorkerAct)
    requires WorkEnabled(cfg, s, w, act) && (WritesRow(act) || act.Succession?)
    ensures OneProcessMoved(s, Work1(cfg, s, w, act), w)
  {}

  predicate Fetches(act: WorkerAct) {
    act.ReserveFrom? || act.BlockOn? || act.StashIt?
  }

  predicate ChangesPresence(act: WorkerAct) {
    act.Register? || act.Beat? || act.Quit? || act.Crash?
  }

  lemma FetchMovesOne(cfg: Config, s: System, w: WorkerId, act: WorkerAct)
    requires WorkEnabled(cfg, s, w, act) && Fetches(act)
    ensures OneProcessMoved(s, Work1(cfg, s, w, act), w)
  {}

  lemma PresenceMovesOne(cfg: Config, s: System, w: WorkerId, act: WorkerAct)
    requires WorkEnabled(cfg, s, w, act) && ChangesPresence(act)
    ensures OneProcessMoved(s, Work1(cfg, s, w, act), w)
  {}

  lemma ConclusionMovesOne(cfg: Config, s: System, w: WorkerId, act: WorkerAct)
    requires WorkEnabled(cfg, s, w, act) && (act.SkipSuccession? || act.Announce? || act.AckIt?)
    ensures OneProcessMoved(s, Work1(cfg, s, w, act), w)
  {}

  /** A worker step moves one process and no clock, and takes no push out of anybody's hands. */
  lemma WorkMovesOneProcess(cfg: Config, s: System, w: WorkerId, act: WorkerAct)
    requires WorkEnabled(cfg, s, w, act)
    ensures OneProcessMoved(s, Work1(cfg, s, w, act), w)
  {
    if WritesRow(act) || act.Succession? {
      OutcomeMovesOne(cfg, s, w, act);
    } else if Fetches(act) {
      FetchMovesOne(cfg, s, w, act);
    } else if ChangesPresence(act) {
      PresenceMovesOne(cfg, s, w, act);
    } else {
      ConclusionMovesOne(cfg, s, w, act);
    }
  }

  lemma QuietWorkKeepsRows(cfg: Config, s: System, w: WorkerId, act: WorkerAct)
    requires WorkEnabled(cfg, s, w, act) && !WritesRow(act) && !act.Succession?
    ensures var s' := Work1(cfg, s, w, act);
            s'.tables.jobs == s.tables.jobs && s'.tables.letters == s.tables.letters && s'.hist == s.hist
  {}

  /** Lock and outcome concern the job in the worker's hands alone. */
  lemma WriteKeepsOthers(cfg: Config, s: System, w: WorkerId, act: WorkerAct, id: JobId)
    requires WorkEnabled(cfg, s, w, act) && WritesRow(act) && s.procs[w].phase.id != id
    ensures var s' := Work1(cfg, s, w, act);
            && (id in s'.tables.jobs <==> id in s.tables.jobs)
            && (id in s.tables.jobs ==> s'.tables.jobs[id] == s.tables.jobs[id])
            && Hist(s', id) == Hist(s, id) && s'.queues == s.queues
  {}

  lemma WriteKeepsPhaseId(cfg: Config, s: System, w: WorkerId, act: WorkerAct)
    requires WorkEnabled(cfg, s, w, act) && WritesRow(act)
    ensures var s' := Work1(cfg, s, w, act);
            && s'.procs[w].live && !s'.procs[w].phase.Idle? && !s'.procs[w].phase.Announcing?
            && s'.procs[w].phase.id == s.procs[w].phase.id
            && s'.tables.jobs.Keys == s.tables.jobs.Keys && s'.tables.workers == s.tables.workers
  {}

  lemma WorkKeepsWorkers(cfg: Config, s: System, w: WorkerId, act: WorkerAct)
    requires WorkEnabled(cfg, s, w, act) && !act.Register? && !act.Beat? && !act.Quit?
    ensures Work1(cfg, s, w, act).tables.workers == s.tables.workers
  {}

  predicate SameWorker(s: System, s': System, v: WorkerId) {
    && (v in s'.tables.workers <==> v in s.tables.workers)
    && (v in s.tables.workers ==> s'.tables.workers[v] == s.tables.workers[v])
    && (Alert(s', v) <==> Alert(s, v))
  }

  lemma PresenceKeepsOthers(cfg: Config, s: System, w: WorkerId, act: WorkerAct, v: WorkerId)
    requires WorkEnabled(cfg, s, w, act) && (act.Register? || act.Beat? || act.Quit?) && v != w
    ensures SameWorker(s, Work1(cfg, s, w, act), v)
  {}

  lemma WorkKeepsOtherWorkers(cfg: Config, s: System, w: WorkerId, act: WorkerAct, v: WorkerId)
    requires WorkEnabled(cfg, s, w, act) && v != w
    ensures SameWorker(s, Work1(cfg, s, w, act), v)
  {
    if act.Register? || act.Beat? || act.Quit? {
      PresenceKeepsOthers(cfg, s, w, act, v);
    } else {
      WorkKeepsWorkers(cfg, s, w, act);
      WorkMovesOneProcess(cfg, s, w, act);
    }
  }

  lemma WorkKeepsLanes(cfg: Config, s: System, w: WorkerId, act: WorkerAct)
    requires WorkEnabled(cfg, s, w, act) && !act.ReserveFrom? && !act.BlockOn?
    ensures forall t: Tier :: Work1(cfg, s, w, act).queues.Lane(t) == s.queues.Lane(t)
  {}

  lemma WorkKeepsSchedule(cfg: Config, s: System, w: WorkerId, act: WorkerAct)
    requires WorkEnabled(cfg, s, w, act) && !act.Announce?
    ensures Work1(cfg, s, w, act).queues.scheduled == s.queues.scheduled
  {}

  /** A step that is neither lock nor outcome nor reservation moves the process to rest, or on with the same job. */
  lemma QuietWorkKeepsJob(cfg: Config, s: System, w: WorkerId, act: WorkerAct)
    requires WorkEnabled(cfg, s, w, act) && !WritesRow(act) && !act.Succession?
    requires !act.ReserveFrom? && !act.BlockOn?
    ensures var phase := Work1(cfg, s, w, act).procs[w].phase;
            || phase.Idle? || (w in s.procs && phase == s.procs[w].phase)
            || (w in s.procs && !s.procs[w].phase.Idle? && !phase.Announcing? && phase.id == s.procs[w].phase.id)
  {}

  // ---- Daemons ----

  lemma DaemonKeepsProcs(cfg: Config, s: System, act: DaemonAct)
    requires DaemonEnabled(s, act)
    ensures var s' := Daemon1(cfg, s, act);
            && s'.procs == s.procs && s'.now == s.now && s'.removals == s.removals
            && s'.tables.letters == s.tables.letters && s'.tables.jobs.Keys == s.tables.jobs.Keys
  {}

  lemma DaemonKeepsRows(cfg: Config, s: System, act: DaemonAct)
    requires DaemonEnabled(s, act) && !act.Reclaim? && !act.PromoteRetries?
    ensures var s' := Daemon1(cfg, s, act);
            s'.tables.jobs == s.tables.jobs && s'.hist == s.hist
  {}

  lemma DaemonKeepsQueues(cfg: Config, s: System, act: DaemonAct)
    requires DaemonEnabled(s, act) && !act.Push? && !act.PromoteDue?
    ensures Daemon1(cfg, s, act).queues == s.queues
  {}

  // ---- Clients ----

  predicate SameClocks(s: System, s': System) {
    && s'.tables.workers == s.tables.workers && s'.now == s.now && s'.procs == s.procs
    && s'.passMark == s.passMark && s'.passReclaim == s.passReclaim && s'.lastMark == s.lastMark
  }

  lemma ReplayKeepsClocks(s: System, letter: LetterId)
    requires letter in s.tables.letters
    ensures SameClocks(s, ReplayStep(s, letter))
  {}

  lemma CancelKeepsClocks(cfg: Config, s: System, act: ClientAct)
    requires ClientEnabled(cfg, s, act) && (act.Cancel? || act.CancelRow?)
    ensures SameClocks(s, Client1(cfg, s, act))
  {}

  lemma ClientKeepsClocks(cfg: Config, s: System, act: ClientAct)
    requires ClientEnabled(cfg, s, act)
    ensures SameClocks(s, Client1(cfg, s, act))
  {
    if act.Replay? {
      ReplayKeepsClocks(s, act.letter);
    } else if act.Cancel? || act.CancelRow? {
      CancelKeepsClocks(cfg, s, act);
    }
  }

  lemma ClientKeepsQueues(cfg: Config, s: System, act: ClientAct)
    requires ClientEnabled(cfg, s, act) && !act.Cancel? && !act.Remove?
    ensures Client1(cfg, s, act).queues == s.queues
  {}

  // ---- The dead ----

  lemma WorkLeavesTheDead(cfg: Config, s: System, v: WorkerId, act: WorkerAct, w: WorkerId)
    requires WorkEnabled(cfg, s, v, act) && w in s.procs && !s.procs[w].live
    ensures w in Work1(cfg, s, v, act).procs && Work1(cfg, s, v, act).procs[w] == s.procs[w]
  {
    assert v != w;
    WorkMovesOneProcess(cfg, s, v, act);
  }

  lemma StepLeavesTheDead(cfg: Config, s: System, step: Step, w: WorkerId)
    requires Enabled(cfg, s, step) && w in s.procs && !s.procs[w].live
    ensures w in Apply(cfg, s, step).procs && Apply(cfg, s, step).procs[w] == s.procs[w]
  {
    match step
    case Work(v, act) => WorkLeavesTheDead(cfg, s, v, act, w);
    case Daemon(act) => DaemonKeepsProcs(cfg, s, act);
    case Client(act) => ClientKeepsClocks(cfg, s, act);
    case Env(act) =>
  }
}
