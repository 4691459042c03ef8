/**
 How often a job can be executed. Outcomes are written under the id alone, so a worker that lost its lock can
 still re-open a finished job; the bound survives because every execution that may yet do so is paid for when
 it starts, and an attempt number is only given out again after a replay.
 */
module Attempts {
  import opened Domain
  import opened Tables
  import opened Protocol
  import opened Frames
  import opened Grounding
  import opened Tallies

  predicate InFlight(s: System, w: WorkerId, id: JobId) {
    w in s.procs && s.procs[w].phase.Executing? && s.procs[w].phase.id == id
  }

  function AttemptOf(s: System, w: WorkerId): nat
    requires w in s.procs && s.procs[w].phase.Executing?
  {
    s.procs[w].phase.attempt
  }

  /** An execution below the maximum may yet send the job back for another attempt, whatever the row says by then. */
  function MayReopen(p: Proc, id: JobId, max: nat): int {
    if p.phase.Executing? && p.phase.id == id && p.phase.attempt < max then 1 else 0
  }

  ghost function Reopeners(procs: map<WorkerId, Proc>, id: JobId, max: nat): int {
    Tally(procs, p => MayReopen(p, id, max))
  }

  /** Locks taken so far, the lock that is open now, and those that running executions may still open. */
  ghost function Spent(s: System, id: JobId): int {
    Hist(s, id).locks + (if Lockable(s.tables, id) then 1 else 0)
      + Reopeners(s.procs, id, SpecOf(s, id).maxAttempts)
  }

  /** One lock for the submission and each reclaim; max_attempts for each replay; one for each attempt made since. */
  function Allowance(h: History, attempts: nat, max: nat): int {
    h.replays * max + 1 + h.reclaims + (if attempts < max then attempts else max - 1)
  }

  ghost predicate Counted(s: System, id: JobId) {
    id in s.tables.jobs ==>
      && s.tables.jobs[id].attempts + Hist(s, id).restart == Hist(s, id).locks
      && (Hist(s, id).replays == 0 ==> Hist(s, id).restart == 0)
      && Spent(s, id) <= Allowance(Hist(s, id), s.tables.jobs[id].attempts, SpecOf(s, id).maxAttempts)
  }

  lemma ReopenersUpdate(procs: map<WorkerId, Proc>, w: WorkerId, p: Proc, id: JobId, max: nat)
    ensures Reopeners(procs[w := p], id, max) == Reopeners(procs, id, max)
            - (if w in procs then MayReopen(procs[w], id, max) else 0) + MayReopen(p, id, max)
  {
    TallyUpdate(procs, w, p, (q: Proc) => MayReopen(q, id, max));
  }

  // ---- Steps that open no lock ----

  /** The row is as it was, except that it may have stopped waiting for a lock. */
  predicate SameCount(s: System, s': System, id: JobId) {
    && Hist(s', id) == Hist(s, id)
    && (id in s.tables.jobs <==> id in s'.tables.jobs)
    && (id in s.tables.jobs ==>
          && s'.tables.jobs[id].spec == s.tables.jobs[id].spec
          && s'.tables.jobs[id].attempts == s.tables.jobs[id].attempts
          && (Lockable(s'.tables, id) ==> Lockable(s.tables, id)))
  }

  lemma Unaffected(s: System, s': System, id: JobId)
    requires Counted(s, id) && SameCount(s, s', id) && s'.procs == s.procs
    ensures Counted(s', id)
  {}

  /** The process that moves does not start an execution of this job, or carries on with the one it had. */
  predicate StartsNothing(s: System, s': System, w: WorkerId, id: JobId) {
    && w in s'.procs && s'.procs == s.procs[w := s'.procs[w]]
    && (InFlight(s', w, id) ==> w in s.procs && s'.procs[w].phase == s.procs[w].phase)
  }

  lemma OneMoves(s: System, s': System, w: WorkerId, id: JobId)
    requires Counted(s, id) && SameCount(s, s', id) && StartsNothing(s, s', w, id)
    ensures Counted(s', id)
  {
    ReopenersUpdate(s.procs, w, s'.procs[w], id, SpecOf(s, id).maxAttempts);
  }

  lemma QuietWorkCounts(cfg: Config, s: System, w: WorkerId, act: WorkerAct, id: JobId)
    requires WorkEnabled(cfg, s, w, act) && !WritesRow(act) && !act.Succession? && Counted(s, id)
    ensures Counted(Work1(cfg, s, w, act), id)
  {
    QuietWorkKeepsRows(cfg, s, w, act);
    WorkMovesOneProcess(cfg, s, w, act);
    QuietWorkStartsNothing(cfg, s, w, act);
    OneMoves(s, Work1(cfg, s, w, act), w, id);
  }

  lemma QuietWorkStartsNothing(cfg: Config, s: System, w: WorkerId, act: WorkerAct)
    requires WorkEnabled(cfg, s, w, act) && !act.LockIt?
    ensures var s' := Work1(cfg, s, w, act);
            s'.procs[w].phase.Executing? ==> w in s.procs && s'.procs[w].phase == s.procs[w].phase
  {}

  lemma OtherJobCounts(cfg: Config, s: System, w: WorkerId, act: WorkerAct, id: JobId)
    requires WorkEnabled(cfg, s, w, act) && WritesRow(act) && s.procs[w].phase.id != id && Counted(s, id)
    ensures Counted(Work1(cfg, s, w, act), id)
  {
    WriteKeepsOthers(cfg, s, w, act, id);
    WriteKeepsPhaseId(cfg, s, w, act);
    WorkMovesOneProcess(cfg, s, w, act);
    OneMoves(s, Work1(cfg, s, w, act), w, id);
  }

  // ---- Locks and outcomes ----

  /** The lock uses up the opening, and the execution it starts is paid for by its attempt number. */
  lemma LockCounts(s: System, w: WorkerId, id: JobId)
    requires Alert(s, w) && s.procs[w].phase == Reserved(id) && Counted(s, id)
    ensures Counted(LockStep(s, w, id), id)
  {
    var s' := LockStep(s, w, id);
    ReopenersUpdate(s.procs, w, s'.procs[w], id, SpecOf(s, id).maxAttempts);
  }

  lemma SucceedCounts(s: System, w: WorkerId, id: JobId, result: Option<string>)
    requires InFlight(s, w, id) && Counted(s, id)
    ensures Counted(SucceedStep(s, w, id, result), id)
  {
    OneMoves(s, SucceedStep(s, w, id, result), w, id);
  }

  /** A failure below the maximum may open the row, even one that had finished, and ends the execution that could. */
  lemma FailCounts(s: System, w: WorkerId, id: JobId, attempt: nat, error: string, draw: real, letter: LetterId)
    requires InFlight(s, w, id) && AttemptOf(s, w) == attempt && Counted(s, id)
    ensures Counted(FailStep(s, w, id, attempt, error, draw, letter), id)
  {
    var s' := FailStep(s, w, id, attempt, error, draw, letter);
    if attempt < SpecOf(s, id).maxAttempts {
      ReopenersUpdate(s.procs, w, s'.procs[w], id, SpecOf(s, id).maxAttempts);
    } else {
      OneMoves(s, s', w, id);
    }
  }

  // ---- New rows ----

  /** A row that did not exist before has no execution in flight. */
  lemma NewRowCounts(s: System, s': System, id: JobId)
    requires id in s'.tables.jobs && s'.tables.jobs[id].attempts == 0 && s'.tables.jobs[id].spec.maxAttempts >= 1
    requires Hist(s', id).locks == Hist(s', id).restart == 0 && forall w :: !InFlight(s', w, id)
    ensures Counted(s', id)
  {
    var max := SpecOf(s', id).maxAttempts;
    forall w | w in s'.procs ensures MayReopen(s'.procs[w], id, max) == 0 {
      assert !InFlight(s', w, id);
    }
    TallyZero(s'.procs, (p: Proc) => MayReopen(p, id, max));
  }

  lemma SuccessionCounts(cfg: Config, s: System, w: WorkerId, act: WorkerAct, id: JobId)
    requires WorkEnabled(cfg, s, w, act) && act.Succession? && Grounded(s) && Counted(s, id)
    ensures Counted(Work1(cfg, s, w, act), id)
  {
    var s' := Work1(cfg, s, w, act);
    if id == act.next {
      assert GroundedAt(s, id) && GroundedAt(s, s.procs[w].phase.id);
      ProcessIsGrounded(s, w);
      NewRowCounts(s, s', id);
    } else {
      OneMoves(s, s', w, id);
    }
  }

  lemma WorkCounts(cfg: Config, s: System, w: WorkerId, act: WorkerAct, id: JobId)
    requires WorkEnabled(cfg, s, w, act) && Grounded(s) && Counted(s, id)
    ensures Counted(Work1(cfg, s, w, act), id)
  {
    if act.Succession? {
      SuccessionCounts(cfg, s, w, act, id);
    } else if !WritesRow(act) {
      QuietWorkCounts(cfg, s, w, act, id);
    } else if s.procs[w].phase.id != id {
      OtherJobCounts(cfg, s, w, act, id);
    } else if act.LockIt? {
      LockCounts(s, w, id);
    } else if act.Fail? {
      FailCounts(s, w, id, s.procs[w].phase.attempt, act.error, act.draw, act.letter);
    } else {
      SucceedCounts(s, w, id, act.result);
    }
  }

  // ---- Daemons and clients ----

  lemma ReclaimCounts(cfg: Config, s: System, via: Reclaimer, id: JobId)
    requires Counted(s, id)
    ensures Counted(ReclaimStep(cfg, s, via), id)
  {
    var s' := ReclaimStep(cfg, s, via);
    assert s'.procs == s.procs;
  }

  lemma PromoteRetriesCounts(cfg: Config, s: System, via: Reclaimer, id: JobId)
    requires Counted(s, id)
    ensures Counted(Daemon1(cfg, s, PromoteRetries(via)), id)
  {
    Unaffected(s, Daemon1(cfg, s, PromoteRetries(via)), id);
  }

  lemma DaemonCounts(cfg: Config, s: System, act: DaemonAct, id: JobId)
    requires DaemonEnabled(s, act) && Counted(s, id)
    ensures Counted(Daemon1(cfg, s, act), id)
  {
    if act.Reclaim? {
      ReclaimCounts(cfg, s, act.via, id);
    } else if act.PromoteRetries? {
      PromoteRetriesCounts(cfg, s, act.via, id);
    } else {
      DaemonKeepsRows(cfg, s, act);
      DaemonKeepsProcs(cfg, s, act);
      Unaffected(s, Daemon1(cfg, s, act), id);
    }
  }

  lemma SubmitCounts(cfg: Config, s: System, act: ClientAct, id: JobId)
    requires ClientEnabled(cfg, s, act) && act.Submit? && GroundedAt(s, id) && Counted(s, id)
    ensures Counted(Client1(cfg, s, act), id)
  {
    if act.id == id {
      NewRowCounts(s, Client1(cfg, s, act), id);
    } else {
      Unaffected(s, Client1(cfg, s, act), id);
    }
  }

  lemma CancelCounts(s: System, s': System, x: JobId, id: JobId)
    requires Counted(s, id) && s'.procs == s.procs && s'.hist == s.hist
    requires s'.tables == s.tables || s'.tables == CancelJob(s.tables, x)
    ensures Counted(s', id)
  {
    Unaffected(s, s', id);
  }

  lemma OneMoreReplay(replays: nat, max: nat)
    ensures (replays + 1) * max == replays * max + max
  {}

  /** A replay starts the numbering again: it costs one opening and allows max_attempts more. */
  lemma ReplayCounts(s: System, letter: LetterId, id: JobId)
    requires letter in s.tables.letters && GroundedAt(s, id) && Counted(s, id)
    ensures Counted(ReplayStep(s, letter), id)
  {
    if s.tables.letters[letter].jobId == id {
      OneMoreReplay(Hist(s, id).replays, SpecOf(s, id).maxAttempts);
      assert ReplayStep(s, letter).procs == s.procs;
    } else {
      Unaffected(s, ReplayStep(s, letter), id);
    }
  }

  lemma ClientCounts(cfg: Config, s: System, act: ClientAct, id: JobId)
    requires ClientEnabled(cfg, s, act) && GroundedAt(s, id) && Counted(s, id)
    ensures Counted(Client1(cfg, s, act), id)
  {
    if act.Submit? {
      SubmitCounts(cfg, s, act, id);
    } else if act.Replay? {
      ReplayCounts(s, act.letter, id);
    } else {
      CancelCounts(s, Client1(cfg, s, act), act.id, id);
    }
  }

  // ---- Whole runs ----

  lemma StepCounts(cfg: Config, s: System, step: Step, id: JobId)
    requires Enabled(cfg, s, step) && Grounded(s) && Counted(s, id)
    ensures Counted(Apply(cfg, s, step), id)
  {
    assert GroundedAt(s, id);
    match step
    case Work(w, act) => WorkCounts(cfg, s, w, act, id);
    case Daemon(act) => DaemonCounts(cfg, s, act, id);
    case Client(act) => ClientCounts(cfg, s, act, id);
    case Env(act) => Unaffected(s, Apply(cfg, s, step), id);
  }

  lemma {:induction false} CountedAlong(cfg: Config, ss: seq<System>, steps: seq<Step>, n: nat, id: JobId)
    requires Run(cfg, ss, steps) && Initial(ss[0]) && n < |ss|
    ensures Counted(ss[n], id)
  {
    if n > 0 {
      CountedAlong(cfg, ss, steps, n - 1, id);
      AlwaysGrounded(cfg, ss, steps, n - 1);
      StepCounts(cfg, ss[n - 1], steps[n - 1], id);
    }
  }

  /**
   In every run, zombies included, a job is executed at most max_attempts times for its submission and for each
   replay, plus once for each reclaim; its attempts column is the number of executions since the last replay.
   */
  lemma ExecutionBound(cfg: Config, ss: seq<System>, steps: seq<Step>, n: nat, id: JobId)
    requires Run(cfg, ss, steps) && Initial(ss[0]) && n < |ss| && id in ss[n].tables.jobs
    ensures var row, h := ss[n].tables.jobs[id], Hist(ss[n], id);
            && h.locks <= (h.replays + 1) * row.spec.maxAttempts + h.reclaims
            && row.attempts == h.locks - h.restart && (h.replays == 0 ==> row.attempts == h.locks)
  {
    var s, max := ss[n], ss[n].tables.jobs[id].spec.maxAttempts;
    CountedAlong(cfg, ss, steps, n, id);
    AlwaysGrounded(cfg, ss, steps, n);
    assert GroundedAt(s, id);
    TallyBounds(s.procs, (p: Proc) => MayReopen(p, id, max));
    OneMoreReplay(Hist(s, id).replays, max);
  }

  // ---- Since a replay ----

  predicate Replays(s: System, step: Step, id: JobId) {
    && step.Client? && step.client.Replay? && step.client.letter in s.tables.letters
    && s.tables.letters[step.client.letter].jobId == id
  }

  lemma WorkKeepsRestart(cfg: Config, s: System, w: WorkerId, act: WorkerAct, id: JobId)
    requires WorkEnabled(cfg, s, w, act) && id in s.tables.jobs
    ensures Hist(Work1(cfg, s, w, act), id).restart == Hist(s, id).restart
  {}

  lemma RestartMoves(cfg: Config, s: System, step: Step, id: JobId)
    requires Enabled(cfg, s, step) && id in s.tables.jobs
    ensures Hist(Apply(cfg, s, step), id).restart
         == if Replays(s, step, id) then Hist(s, id).locks else Hist(s, id).restart
  {
    match step
    case Work(w, act) => WorkKeepsRestart(cfg, s, w, act, id);
    case Daemon(act) =>
    case Client(act) =>
    case Env(act) =>
  }

  lemma {:induction false} RestartStays(cfg: Config, ss: seq<System>, steps: seq<Step>, k: nat, n: nat, id: JobId)
    requires Run(cfg, ss, steps) && k <= n < |ss| && id in ss[k].tables.jobs
    requires forall i {:trigger steps[i]} :: k <= i < n ==> !Replays(ss[i], steps[i], id)
    ensures id in ss[n].tables.jobs && Hist(ss[n], id).restart == Hist(ss[k], id).restart
    decreases n
  {
    if k < n {
      RestartStays(cfg, ss, steps, k, n - 1, id);
      RestartMoves(cfg, ss[n - 1], steps[n - 1], id);
      RowsPersist(cfg, ss[n - 1], steps[n - 1], id);
    }
  }

  /** A replay gives every attempt back: from then on the column counts from zero again. */
  lemma AttemptsSinceReplay(cfg: Config, ss: seq<System>, steps: seq<Step>, k: nat, n: nat, id: JobId)
    requires Run(cfg, ss, steps) && Initial(ss[0]) && k < n < |ss| && Replays(ss[k], steps[k], id)
    requires forall i {:trigger steps[i]} :: k < i < n ==> !Replays(ss[i], steps[i], id)
    ensures id in ss[n].tables.jobs
    ensures ss[n].tables.jobs[id].attempts == Hist(ss[n], id).locks - Hist(ss[k], id).locks
  {
    AlwaysGrounded(cfg, ss, steps, k);
    assert GroundedAt(ss[k], id);
    RestartMoves(cfg, ss[k], steps[k], id);
    RowsPersist(cfg, ss[k], steps[k], id);
    RestartStays(cfg, ss, steps, k + 1, n, id);
    CountedAlong(cfg, ss, steps, n, id);
  }
}
