/** How long a job can stay RUNNING after its worker is gone. */
module Recovery {
  import opened Domain
  import opened Tables
  import opened Protocol
  import opened Frames
  import opened Custody
  import opened Ownership

  predicate ClocksBehind(s: System) {
    s.lastMark <= s.now && s.passMark <= s.now && s.passReclaim <= s.now
  }

  /** A row that still counts as ALIVE was fresh at the last expiry check. */
  ghost predicate MarkedAt(cfg: Config, s: System, w: WorkerId) {
    w in s.tables.workers ==>
      && s.tables.workers[w].lastHeartbeat <= s.now
      && (s.tables.workers[w].status == Alive ==>
          s.tables.workers[w].lastHeartbeat >= s.lastMark - cfg.heartbeatTimeout)
  }

  /** A row that is still RUNNING survived the last completed pass, or was locked after it. */
  ghost predicate SurvivedAt(cfg: Config, s: System, id: JobId) {
    id in s.tables.jobs && s.tables.jobs[id].status == Running ==>
      var row := s.tables.jobs[id];
      && row.lockedAt.Some? && row.lockedBy.Some?
      && row.lockedAt.value >= s.passReclaim - cfg.visibilityTimeout
      && row.lockedBy.value in s.tables.workers
      && s.tables.workers[row.lockedBy.value].lastHeartbeat >= s.passMark - cfg.heartbeatTimeout
  }

  ghost predicate Watched(cfg: Config, s: System) {
    ClocksBehind(s) && (forall w :: MarkedAt(cfg, s, w)) && (forall id :: SurvivedAt(cfg, s, id))
  }

  ghost predicate Marks(cfg: Config, s: System, w: WorkerId) {
    ClocksBehind(s) && MarkedAt(cfg, s, w)
  }

  lemma WorkMarks(cfg: Config, s: System, v: WorkerId, act: WorkerAct, w: WorkerId)
    requires WorkEnabled(cfg, s, v, act) && Sane(cfg) && Marks(cfg, s, w)
    ensures Marks(cfg, Work1(cfg, s, v, act), w)
  {
    WorkMovesOneProcess(cfg, s, v, act);
    if v != w {
      WorkKeepsOtherWorkers(cfg, s, v, act, w);
    } else if !act.Register? && !act.Beat? && !act.Quit? {
      WorkKeepsWorkers(cfg, s, v, act);
    }
  }

  lemma DaemonMarks(cfg: Config, s: System, act: DaemonAct, w: WorkerId)
    requires DaemonEnabled(s, act) && Sane(cfg) && Marks(cfg, s, w)
    ensures Marks(cfg, Daemon1(cfg, s, act), w)
  {}

  lemma StepMarks(cfg: Config, s: System, step: Step, w: WorkerId)
    requires Enabled(cfg, s, step) && Sane(cfg) && Marks(cfg, s, w)
    ensures Marks(cfg, Apply(cfg, s, step), w)
  {
    match step
    case Work(v, act) => WorkMarks(cfg, s, v, act, w);
    case Daemon(act) => DaemonMarks(cfg, s, act, w);
    case Client(act) => ClientKeepsClocks(cfg, s, act);
    case Env(act) =>
  }

  /** Heartbeats only move forward. */
  lemma WorkBeats(cfg: Config, s: System, v: WorkerId, act: WorkerAct, w: WorkerId)
    requires WorkEnabled(cfg, s, v, act) && w in s.tables.workers && s.tables.workers[w].lastHeartbeat <= s.now
    ensures var s' := Work1(cfg, s, v, act);
            && w in s'.tables.workers
            && s'.tables.workers[w].lastHeartbeat >= s.tables.workers[w].lastHeartbeat
            && (!Alert(s, w) && w in s.procs ==>
                s'.tables.workers[w].lastHeartbeat == s.tables.workers[w].lastHeartbeat)
  {}

  /** The worker's row is still there, and no older than it was. */
  predicate HeardOf(s: System, s': System, v: WorkerId)
    requires v in s.tables.workers
  {
    v in s'.tables.workers && s'.tables.workers[v].lastHeartbeat >= s.tables.workers[v].lastHeartbeat
  }

  /** The row is the same and its worker has only been heard of since, or it is not RUNNING any more. */
  lemma RowSurvives(cfg: Config, s: System, s': System, id: JobId)
    requires SurvivedAt(cfg, s, id) && s'.passMark == s.passMark && s'.passReclaim == s.passReclaim
    requires id in s'.tables.jobs && s'.tables.jobs[id].status == Running ==>
               && id in s.tables.jobs && s'.tables.jobs[id] == s.tables.jobs[id]
               && forall v :: s.tables.jobs[id].lockedBy == Some(v) && v in s.tables.workers ==> HeardOf(s, s', v)
    ensures SurvivedAt(cfg, s', id)
  {}

  lemma LockSurvives(cfg: Config, s: System, w: WorkerId, id: JobId)
    requires WorkEnabled(cfg, s, w, LockIt) && s.procs[w].phase.id == id
    requires Sane(cfg) && Beating(cfg, s) && Registered(s) && Watched(cfg, s)
    ensures SurvivedAt(cfg, LockStep(s, w, id), id)
  {
    assert Alert(s, w) && RegisteredAt(s, w) && SurvivedAt(cfg, s, id);
  }

  lemma OutcomeLeavesRunning(cfg: Config, s: System, w: WorkerId, act: WorkerAct)
    requires WorkEnabled(cfg, s, w, act) && (act.Succeed? || act.Fail?) && s.procs[w].phase.id in s.tables.jobs
    ensures var s', id := Work1(cfg, s, w, act), s.procs[w].phase.id;
            id in s'.tables.jobs && s'.tables.jobs[id].status != Running
  {}

  lemma SuccessionKeepsRows(cfg: Config, s: System, w: WorkerId, act: WorkerAct, id: JobId)
    requires WorkEnabled(cfg, s, w, act) && act.Succession?
    ensures var s' := Work1(cfg, s, w, act);
            id in s'.tables.jobs ==>
              if id == act.next then s'.tables.jobs[id].status == Pending
              else id in s.tables.jobs && s'.tables.jobs[id] == s.tables.jobs[id]
  {}

  /** A row that is RUNNING after a worker step was so before, untouched, unless the step locked it. */
  lemma WorkLeavesRow(cfg: Config, s: System, w: WorkerId, act: WorkerAct, id: JobId)
    requires WorkEnabled(cfg, s, w, act) && !(act.LockIt? && s.procs[w].phase.id == id)
    ensures var s' := Work1(cfg, s, w, act);
            id in s'.tables.jobs && s'.tables.jobs[id].status == Running ==>
              id in s.tables.jobs && s'.tables.jobs[id] == s.tables.jobs[id]
  {
    if act.Succession? {
      SuccessionKeepsRows(cfg, s, w, act, id);
    } else if !WritesRow(act) {
      QuietWorkKeepsRows(cfg, s, w, act);
    } else if s.procs[w].phase.id != id {
      WriteKeepsOthers(cfg, s, w, act, id);
    } else {
      WriteKeepsPhaseId(cfg, s, w, act);
      if id in s.tables.jobs {
        OutcomeLeavesRunning(cfg, s, w, act);
      }
    }
  }

  lemma WorkSurvives(cfg: Config, s: System, w: WorkerId, act: WorkerAct, id: JobId)
    requires WorkEnabled(cfg, s, w, act) && Sane(cfg) && Beating(cfg, s) && Registered(s) && Watched(cfg, s)
    ensures SurvivedAt(cfg, Work1(cfg, s, w, act), id)
  {
    assert SurvivedAt(cfg, s, id);
    if act.LockIt? && s.procs[w].phase.id == id {
      LockSurvives(cfg, s, w, id);
    } else {
      var s' := Work1(cfg, s, w, act);
      WorkLeavesRow(cfg, s, w, act, id);
      WorkMovesOneProcess(cfg, s, w, act);
      forall v | v in s.tables.workers ensures HeardOf(s, s', v) {
        assert MarkedAt(cfg, s, v);
        WorkBeats(cfg, s, w, act, v);
      }
      RowSurvives(cfg, s, s', id);
    }
  }

  lemma DaemonSurvives(cfg: Config, s: System, act: DaemonAct, id: JobId)
    requires DaemonEnabled(s, act) && Sane(cfg) && Watched(cfg, s)
    ensures SurvivedAt(cfg, Daemon1(cfg, s, act), id)
  {
    assert SurvivedAt(cfg, s, id);
    if id in s.tables.jobs && s.tables.jobs[id].lockedBy.Some? {
      assert MarkedAt(cfg, s, s.tables.jobs[id].lockedBy.value);
    }
  }

  lemma CancelLeavesRunning(t: Tables, x: JobId, id: JobId)
    requires id in CancelJob(t, x).jobs && CancelJob(t, x).jobs[id].status == Running
    ensures id in t.jobs && CancelJob(t, x).jobs[id] == t.jobs[id]
  {}

  lemma ReplayLeavesRunning(t: Tables, letter: LetterId, id: JobId)
    requires letter in t.letters && id in ReplayLetter(t, letter).jobs
             && ReplayLetter(t, letter).jobs[id].status == Running
    ensures id in t.jobs && ReplayLetter(t, letter).jobs[id] == t.jobs[id]
  {}

  /** No request changes a row that is RUNNING afterwards. */
  lemma ClientLeavesRunning(cfg: Config, s: System, act: ClientAct, id: JobId)
    requires ClientEnabled(cfg, s, act)
    requires id in Client1(cfg, s, act).tables.jobs && Client1(cfg, s, act).tables.jobs[id].status == Running
    ensures id in s.tables.jobs && Client1(cfg, s, act).tables.jobs[id] == s.tables.jobs[id]
  {
    if act.Cancel? || act.CancelRow? {
      CancelLeavesRunning(s.tables, act.id, id);
    } else if act.Replay? {
      ReplayLeavesRunning(s.tables, act.letter, id);
    }
  }

  lemma ClientSurvives(cfg: Config, s: System, act: ClientAct, id: JobId)
    requires ClientEnabled(cfg, s, act) && SurvivedAt(cfg, s, id)
    ensures SurvivedAt(cfg, Client1(cfg, s, act), id)
  {
    var s' := Client1(cfg, s, act);
    ClientKeepsClocks(cfg, s, act);
    if id in s'.tables.jobs && s'.tables.jobs[id].status == Running {
      ClientLeavesRunning(cfg, s, act, id);
    }
  }

  lemma StepWatched(cfg: Config, s: System, step: Step)
    requires Enabled(cfg, s, step) && Sane(cfg) && Beating(cfg, s) && Registered(s) && Watched(cfg, s)
    ensures Watched(cfg, Apply(cfg, s, step))
  {
    StepMarks(cfg, s, step, 0);
    forall w ensures MarkedAt(cfg, Apply(cfg, s, step), w) {
      StepMarks(cfg, s, step, w);
    }
    forall id ensures SurvivedAt(cfg, Apply(cfg, s, step), id) {
      assert SurvivedAt(cfg, s, id);
      match step
      case Work(w, act) => WorkSurvives(cfg, s, w, act, id);
      case Daemon(act) => DaemonSurvives(cfg, s, act, id);
      case Client(act) => ClientSurvives(cfg, s, act, id);
      case Env(act) =>
    }
  }

  /** Live workers keep refreshing their row; how long a handler takes does not matter. */
  ghost predicate BeatingRun(cfg: Config, ss: seq<System>, steps: seq<Step>) {
    && Sane(cfg) && Run(cfg, ss, steps) && Initial(ss[0])
    && forall i :: 0 <= i < |ss| ==> Beating(cfg, ss[i])
  }

  lemma {:induction false} AlwaysWatched(cfg: Config, ss: seq<System>, steps: seq<Step>, n: nat)
    requires BeatingRun(cfg, ss, steps) && n < |ss|
    ensures Watched(cfg, ss[n]) && Registered(ss[n])
  {
    if n > 0 {
      AlwaysWatched(cfg, ss, steps, n - 1);
      LiveWorkersStayRegistered(cfg, ss[n - 1], steps[n - 1]);
      StepWatched(cfg, ss[n - 1], steps[n - 1]);
    }
  }

  /** The last completed pass, and the expiry check it followed, are at most an interval old. */
  predicate Patrolled(cfg: Config, s: System) {
    s.now - s.passMark <= cfg.passInterval && s.now - s.passReclaim <= cfg.passInterval
  }

  /** The lock of a row that is still RUNNING was young enough at the last reclaim. */
  ghost predicate YoungAt(cfg: Config, s: System, id: JobId) {
    && s.passReclaim <= s.now
    && (id in s.tables.jobs && s.tables.jobs[id].status == Running && s.tables.jobs[id].lockedAt.Some? ==>
          s.tables.jobs[id].lockedAt.value >= s.passReclaim - cfg.visibilityTimeout)
  }

  lemma WorkYoung(cfg: Config, s: System, w: WorkerId, act: WorkerAct, id: JobId)
    requires WorkEnabled(cfg, s, w, act) && cfg.visibilityTimeout >= 0.0 && YoungAt(cfg, s, id)
    ensures YoungAt(cfg, Work1(cfg, s, w, act), id)
  {
    var s' := Work1(cfg, s, w, act);
    assert s'.now == s.now && s'.passReclaim == s.passReclaim;
  }

  lemma DaemonYoung(cfg: Config, s: System, act: DaemonAct, id: JobId)
    requires DaemonEnabled(s, act) && cfg.visibilityTimeout >= 0.0 && YoungAt(cfg, s, id)
    ensures YoungAt(cfg, Daemon1(cfg, s, act), id)
  {
    if !act.Reclaim? && !act.PromoteRetries? {
      assert Daemon1(cfg, s, act).tables.jobs == s.tables.jobs;
    }
  }

  lemma ClientYoung(cfg: Config, s: System, act: ClientAct, id: JobId)
    requires ClientEnabled(cfg, s, act) && YoungAt(cfg, s, id)
    ensures YoungAt(cfg, Client1(cfg, s, act), id)
  {
    var s' := Client1(cfg, s, act);
    ClientKeepsClocks(cfg, s, act);
    if id in s'.tables.jobs && s'.tables.jobs[id].status == Running {
      ClientLeavesRunning(cfg, s, act, id);
    }
  }

  lemma StepYoung(cfg: Config, s: System, step: Step, id: JobId)
    requires Enabled(cfg, s, step) && cfg.visibilityTimeout >= 0.0 && YoungAt(cfg, s, id)
    ensures YoungAt(cfg, Apply(cfg, s, step), id)
  {
    match step
    case Work(w, act) => WorkYoung(cfg, s, w, act, id);
    case Daemon(act) => DaemonYoung(cfg, s, act, id);
    case Client(act) => ClientYoung(cfg, s, act, id);
    case Env(act) =>
  }

  lemma {:induction false} AlwaysYoung(cfg: Config, ss: seq<System>, steps: seq<Step>, n: nat, id: JobId)
    requires Run(cfg, ss, steps) && Initial(ss[0]) && cfg.visibilityTimeout >= 0.0 && n < |ss|
    ensures YoungAt(cfg, ss[n], id)
  {
    if n > 0 {
      AlwaysYoung(cfg, ss, steps, n - 1, id);
      StepYoung(cfg, ss[n - 1], steps[n - 1], id);
    }
  }

  /** In any run, zombies included, no lock is older than the visibility timeout plus the age of the last reclaim. */
  lemma BoundedLockAge(cfg: Config, ss: seq<System>, steps: seq<Step>, n: nat, id: JobId)
    requires Run(cfg, ss, steps) && Initial(ss[0]) && cfg.visibilityTimeout >= 0.0 && n < |ss|
    requires id in ss[n].tables.jobs && ss[n].tables.jobs[id].status == Running
    ensures var row := ss[n].tables.jobs[id];
            && row.lockedBy.Some? && row.lockedAt.Some?
            && ss[n].now - row.lockedAt.value <= cfg.visibilityTimeout + (ss[n].now - ss[n].passReclaim)
    ensures Patrolled(cfg, ss[n]) ==>
      ss[n].now - ss[n].tables.jobs[id].lockedAt.value <= cfg.visibilityTimeout + cfg.passInterval
  {
    AlwaysYoung(cfg, ss, steps, n, id);
    LocksAlwaysMatch(cfg, ss, steps, n, id);
  }

  /** While live workers beat, whatever crashes and however long handlers take, a RUNNING job's worker is not silent. */
  lemma BoundedRecovery(cfg: Config, ss: seq<System>, steps: seq<Step>, n: nat, id: JobId)
    requires BeatingRun(cfg, ss, steps) && n < |ss| && Patrolled(cfg, ss[n])
    requires id in ss[n].tables.jobs && ss[n].tables.jobs[id].status == Running
    ensures var row := ss[n].tables.jobs[id];
            && row.lockedAt.Some? && ss[n].now - row.lockedAt.value <= cfg.visibilityTimeout + cfg.passInterval
            && row.lockedBy.Some? && row.lockedBy.value in ss[n].tables.workers
            && ss[n].now - ss[n].tables.workers[row.lockedBy.value].lastHeartbeat
               <= cfg.heartbeatTimeout + cfg.passInterval
  {
    BoundedLockAge(cfg, ss, steps, n, id);
    AlwaysWatched(cfg, ss, steps, n);
    assert SurvivedAt(cfg, ss[n], id);
  }

  // ---- Measured from the crash ----

  predicate Silent(s: System, s': System, w: WorkerId) {
    && w in s.procs && w in s.tables.workers && w in s'.procs && w in s'.tables.workers
    && !s'.procs[w].live && s'.tables.workers[w].lastHeartbeat == s.tables.workers[w].lastHeartbeat
  }

  lemma WorkSilent(cfg: Config, s: System, v: WorkerId, act: WorkerAct, w: WorkerId)
    requires WorkEnabled(cfg, s, v, act) && w in s.procs && !s.procs[w].live
    requires w in s.tables.workers && s.tables.workers[w].lastHeartbeat <= s.now
    ensures Silent(s, Work1(cfg, s, v, act), w)
  {
    WorkBeats(cfg, s, v, act, w);
    assert v != w;
  }

  lemma DaemonSilent(cfg: Config, s: System, act: DaemonAct, w: WorkerId)
    requires DaemonEnabled(s, act) && w in s.procs && !s.procs[w].live && w in s.tables.workers
    ensures Silent(s, Daemon1(cfg, s, act), w)
  {}

  lemma ClientSilent(cfg: Config, s: System, act: ClientAct, w: WorkerId)
    requires ClientEnabled(cfg, s, act) && w in s.procs && !s.procs[w].live && w in s.tables.workers
    ensures Silent(s, Client1(cfg, s, act), w)
  {
    ClientKeepsClocks(cfg, s, act);
  }

  lemma SilentStep(cfg: Config, s: System, step: Step, w: WorkerId)
    requires Enabled(cfg, s, step) && w in s.procs && !s.procs[w].live
    requires w in s.tables.workers && s.tables.workers[w].lastHeartbeat <= s.now
    ensures Silent(s, Apply(cfg, s, step), w)
  {
    match step
    case Work(v, act) => WorkSilent(cfg, s, v, act, w);
    case Daemon(act) => DaemonSilent(cfg, s, act, w);
    case Client(act) => ClientSilent(cfg, s, act, w);
    case Env(act) =>
  }

  lemma WorkersPersist(cfg: Config, s: System, step: Step, w: WorkerId)
    requires Enabled(cfg, s, step)
    ensures w in s.tables.workers ==> w in Apply(cfg, s, step).tables.workers
    ensures w in Apply(cfg, s, step).procs && w !in s.procs ==> w in Apply(cfg, s, step).tables.workers
  {
    match step
    case Work(v, act) =>
      if v != w {
        WorkMovesOneProcess(cfg, s, v, act);
        WorkKeepsOtherWorkers(cfg, s, v, act, w);
      }
    case Daemon(act) => DaemonKeepsProcs(cfg, s, act);
    case Client(act) => ClientKeepsClocks(cfg, s, act);
    case Env(act) =>
  }

  /** Every process that ever ran has a row. */
  lemma {:induction false} ProcessesHaveRows(cfg: Config, ss: seq<System>, steps: seq<Step>, n: nat, w: WorkerId)
    requires Run(cfg, ss, steps) && Initial(ss[0]) && n < |ss| && w in ss[n].procs
    ensures w in ss[n].tables.workers
  {
    if n > 0 {
      if w in ss[n - 1].procs {
        ProcessesHaveRows(cfg, ss, steps, n - 1, w);
      }
      WorkersPersist(cfg, ss[n - 1], steps[n - 1], w);
    }
  }

  lemma {:induction false} DeadWorkersAreSilent(cfg: Config, ss: seq<System>, steps: seq<Step>, i: nat, j: nat,
                                                w: WorkerId)
    requires BeatingRun(cfg, ss, steps) && i <= j < |ss| && w in ss[i].procs && !ss[i].procs[w].live
    ensures w in ss[j].procs && !ss[j].procs[w].live && w in ss[j].tables.workers
    ensures ss[j].tables.workers[w].lastHeartbeat <= ss[i].now
    decreases j
  {
    if i == j {
      ProcessesHaveRows(cfg, ss, steps, i, w);
      AlwaysWatched(cfg, ss, steps, i);
      assert MarkedAt(cfg, ss[i], w);
    } else {
      DeadWorkersAreSilent(cfg, ss, steps, i, j - 1, w);
      AlwaysWatched(cfg, ss, steps, j - 1);
      assert MarkedAt(cfg, ss[j - 1], w);
      SilentStep(cfg, ss[j - 1], steps[j - 1], w);
    }
  }

  /** A job whose worker crashed leaves RUNNING within the heartbeat timeout plus one pass interval of the crash. */
  lemma CrashIsRecovered(cfg: Config, ss: seq<System>, steps: seq<Step>, i: nat, j: nat, w: WorkerId, id: JobId)
    requires BeatingRun(cfg, ss, steps) && i <= j < |ss| && Patrolled(cfg, ss[j])
    requires w in ss[i].procs && !ss[i].procs[w].live
    requires ss[j].now > ss[i].now + cfg.heartbeatTimeout + cfg.passInterval
    ensures !(id in ss[j].tables.jobs && ss[j].tables.jobs[id].status == Running
            && ss[j].tables.jobs[id].lockedBy == Some(w))
  {
    DeadWorkersAreSilent(cfg, ss, steps, i, j, w);
    AlwaysWatched(cfg, ss, steps, j);
    assert SurvivedAt(cfg, ss[j], id);
  }
}
