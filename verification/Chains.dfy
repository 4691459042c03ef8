/** Recurring jobs: each chain of occurrences has one open end, which is a row or a worker about to insert it. */
module Chains {
  import opened Domain
  import opened Tables
  import opened Protocol
  import opened Frames
  import opened Recurrence
  import opened Grounding
  import opened Attempts
  import opened Ownership

  /** An occurrence of the chain that the submission of job c started. */
  predicate Member(s: System, id: JobId, c: JobId) {
    id in s.tables.jobs && Recurring(s.tables.jobs[id].spec) && Hist(s, id).chain == c
  }

  /** The occurrence has not succeeded: it waits, runs, retries, was cancelled, or is a dead letter. */
  predicate Open(s: System, id: JobId, c: JobId) {
    Member(s, id, c) && s.tables.jobs[id].status != Success
  }

  predicate Between(s: System, w: WorkerId, c: JobId) {
    w in s.procs && s.procs[w].phase.Finishing? && Member(s, s.procs[w].phase.id, c)
  }

  ghost predicate OneEnd(s: System, c: JobId) {
    && (forall i, j :: Open(s, i, c) && Open(s, j, c) ==> i == j)
    && (forall w, i :: !(Between(s, w, c) && Open(s, i, c)))
    && (forall w, v :: Between(s, w, c) && Between(s, v, c) ==> w == v)
  }

  ghost predicate HasEnd(s: System, c: JobId) {
    (exists i :: Open(s, i, c)) || (exists w :: Between(s, w, c))
  }

  ghost predicate ChainAt(s: System, c: JobId) {
    && OneEnd(s, c)
    && (forall i :: Member(s, i, c) ==> c in s.tables.jobs)
    && ((exists i :: Member(s, i, c)) ==> HasEnd(s, c))
  }

  /** A process finishes only jobs that recur. */
  ghost predicate FinishersRecur(s: System) {
    forall w :: w in s.procs && s.procs[w].phase.Finishing? ==> Recurring(SpecOf(s, s.procs[w].phase.id))
  }

  // ---- Steps that do not move the end of this chain ----

  ghost predicate SameChain(s: System, s': System, c: JobId) {
    && (forall i :: Member(s', i, c) <==> Member(s, i, c))
    && (forall i :: Open(s', i, c) <==> Open(s, i, c))
    && (forall w :: Between(s', w, c) <==> Between(s, w, c))
    && (c in s.tables.jobs ==> c in s'.tables.jobs)
  }

  lemma ChainUnaffected(s: System, s': System, c: JobId)
    requires ChainAt(s, c) && SameChain(s, s', c)
    ensures ChainAt(s', c)
  {
    if i :| Member(s', i, c) {
      assert Member(s, i, c);
      if j :| Open(s, j, c) {
        assert Open(s', j, c);
      } else {
        var w :| Between(s, w, c);
        assert Between(s', w, c);
      }
    }
  }

  lemma SameRowsSameChain(s: System, s': System, c: JobId)
    requires ChainAt(s, c) && s'.tables.jobs == s.tables.jobs && s'.hist == s.hist
    requires s'.procs == s.procs || forall w :: Between(s', w, c) <==> Between(s, w, c)
    ensures ChainAt(s', c)
  {
    ChainUnaffected(s, s', c);
  }

  // ---- Steps that do ----

  lemma SucceedMovesEnd(s: System, w: WorkerId, id: JobId, result: Option<string>, c: JobId)
    requires Alert(s, w) && InFlight(s, w, id) && OwnedAt(s, id) && ChainAt(s, c)
    ensures ChainAt(SucceedStep(s, w, id, result), c)
  {
    var s' := SucceedStep(s, w, id, result);
    assert Owns(s, w, id) && s.tables.jobs[id].status == Running;
    if Member(s, id, c) {
      assert Open(s, id, c);
      assert forall v :: !Between(s, v, c);
      assert forall i :: Open(s', i, c) ==> Open(s, i, c) && i != id;
      assert forall v :: Between(s', v, c) ==> v == w || Between(s, v, c);
      assert Between(s', w, c);
      assert forall i :: Member(s', i, c) ==> Member(s, i, c);
    } else {
      ChainUnaffected(s, s', c);
    }
  }

  lemma SuccessionMovesEnd(cfg: Config, s: System, w: WorkerId, id: JobId, next: JobId, c: JobId)
    requires Alert(s, w) && s.procs[w].phase == Finishing(id) && next !in s.tables.jobs && NextRun(cfg, s, id).Ok?
    requires GroundedAt(s, next) && id in s.tables.jobs && Recurring(s.tables.jobs[id].spec) && ChainAt(s, c)
    ensures ChainAt(SuccessionStep(cfg, s, w, id, next), c)
  {
    var s' := SuccessionStep(cfg, s, w, id, next);
    assert forall i :: i != next ==> (Member(s', i, c) <==> Member(s, i, c)) && (Open(s', i, c) <==> Open(s, i, c));
    if Member(s, id, c) {
      assert Between(s, w, c);
      assert forall i :: !Open(s, i, c);
      assert Open(s', next, c);
      forall v ensures !Between(s', v, c) {
        assert Between(s', v, c) ==> Between(s, v, c) && v != w;
      }
    } else {
      assert !Member(s', next, c);
      ChainUnaffected(s, s', c);
    }
  }

  lemma SubmitStartsChain(cfg: Config, s: System, id: JobId, spec: Spec, scheduledFor: Option<Time>, c: JobId)
    requires ClientEnabled(cfg, s, Submit(id, spec, scheduledFor)) && GroundedAt(s, id) && ChainAt(s, c)
    ensures ChainAt(Client1(cfg, s, Submit(id, spec, scheduledFor)), c)
  {
    var s' := Client1(cfg, s, Submit(id, spec, scheduledFor));
    assert forall i :: i != id ==> (Member(s', i, c) <==> Member(s, i, c)) && (Open(s', i, c) <==> Open(s, i, c));
    if c == id && Recurring(spec) {
      assert forall i :: !Member(s, i, c);
      assert Open(s', id, c);
      forall w ensures !Between(s', w, c) {
        assert w in s.procs ==> !Concerns(s.procs[w].phase, id);
      }
    } else {
      assert !Member(s', id, c);
      ChainUnaffected(s, s', c);
    }
  }

  // ---- One step ----

  /** The worker that owes this chain its next occurrence gives it up. */
  predicate SkipsChain(s: System, step: Step, c: JobId) {
    step.Work? && step.act.SkipSuccession? && Between(s, step.w, c)
  }

  lemma FailStepKeepsChain(s: System, w: WorkerId, id: JobId, attempt: nat, error: string, draw: real,
                           letter: LetterId, c: JobId)
    requires InFlight(s, w, id) && id in s.tables.jobs && s.tables.jobs[id].status == Running && ChainAt(s, c)
    ensures ChainAt(FailStep(s, w, id, attempt, error, draw, letter), c)
  {
    ChainUnaffected(s, FailStep(s, w, id, attempt, error, draw, letter), c);
  }

  lemma FailKeepsChain(cfg: Config, s: System, w: WorkerId, act: WorkerAct, c: JobId)
    requires WorkEnabled(cfg, s, w, act) && act.Fail? && OwnedAt(s, s.procs[w].phase.id) && ChainAt(s, c)
    ensures ChainAt(Work1(cfg, s, w, act), c)
  {
    var id := s.procs[w].phase.id;
    assert Owns(s, w, id);
    FailStepKeepsChain(s, w, id, s.procs[w].phase.attempt, act.error, act.draw, act.letter, c);
  }

  lemma WorkKeepsChain(cfg: Config, s: System, w: WorkerId, act: WorkerAct, c: JobId)
    requires WorkEnabled(cfg, s, w, act) && !SkipsChain(s, Work(w, act), c)
    requires Orderly(s) && FinishersRecur(s) && ChainAt(s, c)
    ensures ChainAt(Work1(cfg, s, w, act), c)
  {
    if act.Succeed? {
      assert OrderlyAt(s, s.procs[w].phase.id);
      SucceedMovesEnd(s, w, s.procs[w].phase.id, act.result, c);
    } else if act.Succession? {
      ProcessIsGrounded(s, w);
      assert GroundedAt(s, act.next);
      SuccessionMovesEnd(cfg, s, w, s.procs[w].phase.id, act.next, c);
    } else if act.Fail? {
      assert OrderlyAt(s, s.procs[w].phase.id);
      FailKeepsChain(cfg, s, w, act, c);
    } else if act.LockIt? {
      LockKeepsChain(cfg, s, w, c);
    } else if act.SkipSuccession? {
      SkipKeepsChain(cfg, s, w, c);
    } else {
      QuietWorkKeepsChain(cfg, s, w, act, c);
    }
  }

  lemma LockKeepsChain(cfg: Config, s: System, w: WorkerId, c: JobId)
    requires WorkEnabled(cfg, s, w, LockIt) && ChainAt(s, c)
    ensures ChainAt(Work1(cfg, s, w, LockIt), c)
  {
    ChainUnaffected(s, Work1(cfg, s, w, LockIt), c);
  }

  lemma SkipKeepsChain(cfg: Config, s: System, w: WorkerId, c: JobId)
    requires WorkEnabled(cfg, s, w, SkipSuccession) && !Between(s, w, c) && ChainAt(s, c)
    ensures ChainAt(Work1(cfg, s, w, SkipSuccession), c)
  {
    SameRowsSameChain(s, Work1(cfg, s, w, SkipSuccession), c);
  }

  lemma QuietWorkKeepsPhase(cfg: Config, s: System, w: WorkerId, act: WorkerAct)
    requires WorkEnabled(cfg, s, w, act) && !WritesRow(act) && !act.Succession? && !act.SkipSuccession?
    ensures var s' := Work1(cfg, s, w, act);
            && (s'.procs[w].phase.Finishing? <==> w in s.procs && s.procs[w].phase.Finishing?)
            && (s'.procs[w].phase.Finishing? ==> s'.procs[w].phase == s.procs[w].phase)
  {}

  lemma SameFinishersSameChain(s: System, s': System, w: WorkerId, c: JobId)
    requires ChainAt(s, c) && s'.tables.jobs == s.tables.jobs && s'.hist == s.hist
    requires w in s'.procs && s'.procs == s.procs[w := s'.procs[w]]
    requires s'.procs[w].phase.Finishing? <==> w in s.procs && s.procs[w].phase.Finishing?
    requires s'.procs[w].phase.Finishing? ==> s'.procs[w].phase == s.procs[w].phase
    ensures ChainAt(s', c)
  {
    SameRowsSameChain(s, s', c);
  }

  lemma QuietWorkKeepsChain(cfg: Config, s: System, w: WorkerId, act: WorkerAct, c: JobId)
    requires WorkEnabled(cfg, s, w, act) && !WritesRow(act) && !act.Succession? && !act.SkipSuccession?
    requires ChainAt(s, c)
    ensures ChainAt(Work1(cfg, s, w, act), c)
  {
    QuietWorkKeepsRows(cfg, s, w, act);
    WorkMovesOneProcess(cfg, s, w, act);
    QuietWorkKeepsPhase(cfg, s, w, act);
    SameFinishersSameChain(s, Work1(cfg, s, w, act), w, c);
  }

  lemma ReplayKeepsChain(s: System, letter: LetterId, c: JobId)
    requires letter in s.tables.letters && LettersAt(s, s.tables.letters[letter].jobId) && ChainAt(s, c)
    ensures ChainAt(ReplayStep(s, letter), c)
  {
    assert LetterFor(s, letter, s.tables.letters[letter].jobId);
    ChainUnaffected(s, ReplayStep(s, letter), c);
  }

  lemma CancelKeepsChain(s: System, s': System, x: JobId, c: JobId)
    requires ChainAt(s, c) && s'.procs == s.procs && s'.hist == s.hist
    requires s'.tables == s.tables || s'.tables == CancelJob(s.tables, x)
    ensures ChainAt(s', c)
  {
    ChainUnaffected(s, s', c);
  }

  lemma ReclaimKeepsChain(cfg: Config, s: System, via: Reclaimer, c: JobId)
    requires ChainAt(s, c)
    ensures ChainAt(ReclaimStep(cfg, s, via), c)
  {
    ChainUnaffected(s, ReclaimStep(cfg, s, via), c);
  }

  lemma RetriesKeepChain(cfg: Config, s: System, via: Reclaimer, c: JobId)
    requires ChainAt(s, c)
    ensures ChainAt(Daemon1(cfg, s, PromoteRetries(via)), c)
  {
    ChainUnaffected(s, Daemon1(cfg, s, PromoteRetries(via)), c);
  }

  lemma DaemonKeepsChain(cfg: Config, s: System, act: DaemonAct, c: JobId)
    requires DaemonEnabled(s, act) && ChainAt(s, c)
    ensures ChainAt(Daemon1(cfg, s, act), c)
  {
    if act.Reclaim? {
      ReclaimKeepsChain(cfg, s, act.via, c);
    } else if act.PromoteRetries? {
      RetriesKeepChain(cfg, s, act.via, c);
    } else {
      DaemonKeepsRows(cfg, s, act);
      DaemonKeepsProcs(cfg, s, act);
      SameRowsSameChain(s, Daemon1(cfg, s, act), c);
    }
  }

  lemma ClientKeepsChain(cfg: Config, s: System, act: ClientAct, c: JobId)
    requires ClientEnabled(cfg, s, act) && Orderly(s) && ChainAt(s, c)
    ensures ChainAt(Client1(cfg, s, act), c)
  {
    if act.Submit? {
      assert GroundedAt(s, act.id);
      SubmitStartsChain(cfg, s, act.id, act.spec, act.scheduledFor, c);
    } else if act.Replay? {
      assert OrderlyAt(s, s.tables.letters[act.letter].jobId);
      ReplayKeepsChain(s, act.letter, c);
    } else {
      CancelKeepsChain(s, Client1(cfg, s, act), act.id, c);
    }
  }

  lemma StepKeepsChain(cfg: Config, s: System, step: Step, c: JobId)
    requires Enabled(cfg, s, step) && !SkipsChain(s, step, c) && Orderly(s) && FinishersRecur(s) && ChainAt(s, c)
    ensures ChainAt(Apply(cfg, s, step), c)
  {
    match step
    case Work(w, act) => WorkKeepsChain(cfg, s, w, act, c);
    case Daemon(act) => DaemonKeepsChain(cfg, s, act, c);
    case Client(act) => ClientKeepsChain(cfg, s, act, c);
    case Env(act) => ChainUnaffected(s, Apply(cfg, s, step), c);
  }

  /** A process that is Finishing was so before, or has just recorded the success of a recurring job. */
  lemma FinisherBefore(cfg: Config, s: System, step: Step, w: WorkerId)
    requires Enabled(cfg, s, step) && w in Apply(cfg, s, step).procs && Apply(cfg, s, step).procs[w].phase.Finishing?
    ensures w in s.procs && !s.procs[w].phase.Idle? && s.procs[w].phase.id == Apply(cfg, s, step).procs[w].phase.id
    ensures s.procs[w].phase.Finishing? || Recurring(SpecOf(s, s.procs[w].phase.id))
  {
    if step.Work? {
      WorkFinisherBefore(cfg, s, step.w, step.act, w);
    } else if step.Daemon? {
      DaemonKeepsProcs(cfg, s, step.daemon);
    } else if step.Client? {
      ClientKeepsClocks(cfg, s, step.client);
    }
  }

  lemma WorkFinisherBefore(cfg: Config, s: System, v: WorkerId, act: WorkerAct, w: WorkerId)
    requires WorkEnabled(cfg, s, v, act) && w in Work1(cfg, s, v, act).procs
             && Work1(cfg, s, v, act).procs[w].phase.Finishing?
    ensures w in s.procs && !s.procs[w].phase.Idle? && s.procs[w].phase.id == Work1(cfg, s, v, act).procs[w].phase.id
    ensures s.procs[w].phase.Finishing? || Recurring(SpecOf(s, s.procs[w].phase.id))
  {
    var s' := Work1(cfg, s, v, act);
    if v != w {
      assert s'.procs[w] == s.procs[w];
    } else if act.Succeed? {
      assert s' == SucceedStep(s, w, s.procs[w].phase.id, act.result);
    } else {
      assert s'.procs[w].phase == s.procs[w].phase;
    }
  }

  lemma StepKeepsFinishers(cfg: Config, s: System, step: Step)
    requires Enabled(cfg, s, step) && Grounded(s) && FinishersRecur(s)
    ensures FinishersRecur(Apply(cfg, s, step))
  {
    var s' := Apply(cfg, s, step);
    forall w | w in s'.procs && s'.procs[w].phase.Finishing? ensures Recurring(SpecOf(s', s'.procs[w].phase.id)) {
      FinisherBefore(cfg, s, step, w);
      ProcessIsGrounded(s, w);
      RowsPersist(cfg, s, step, s.procs[w].phase.id);
    }
  }

  // ---- Whole runs ----

  /** Every occurrence of this chain that succeeds gets its successor. */
  ghost predicate ContinuingRun(cfg: Config, ss: seq<System>, steps: seq<Step>, c: JobId) {
    && TimelyRun(cfg, ss, steps)
    && forall i {:trigger steps[i]} :: 0 <= i < |steps| ==> !SkipsChain(ss[i], steps[i], c)
  }

  lemma {:induction false} ChainAlways(cfg: Config, ss: seq<System>, steps: seq<Step>, n: nat, c: JobId)
    requires ContinuingRun(cfg, ss, steps, c) && n < |ss|
    ensures ChainAt(ss[n], c) && FinishersRecur(ss[n])
  {
    if n > 0 {
      ChainAlways(cfg, ss, steps, n - 1, c);
      AlwaysOrderly(cfg, ss, steps, n - 1);
      StepKeepsChain(cfg, ss[n - 1], steps[n - 1], c);
      StepKeepsFinishers(cfg, ss[n - 1], steps[n - 1]);
    }
  }

  predicate Runnable(s: System, id: JobId, c: JobId) {
    Member(s, id, c) && !Final(s.tables.jobs[id].status)
  }

  /** Cancelled, or dead-lettered and waiting for a replay. */
  predicate Closed(s: System, id: JobId, c: JobId) {
    Member(s, id, c) && (s.tables.jobs[id].status == Failed || s.tables.jobs[id].status == DeadLetter)
  }

  // ---- A worker that dies between SUCCESS and the successor ends the chain ----

  /** The step kills a worker that owes this chain its next occurrence. */
  predicate EndsChain(s: System, step: Step, c: JobId) {
    step.Work? && step.act.Crash? && Between(s, step.w, c)
  }

  lemma WorkKeepsChainId(cfg: Config, s: System, w: WorkerId, act: WorkerAct, id: JobId)
    requires WorkEnabled(cfg, s, w, act) && id in s.tables.jobs
    ensures Hist(Work1(cfg, s, w, act), id).chain == Hist(s, id).chain
  {}

  lemma ClientKeepsChainId(cfg: Config, s: System, act: ClientAct, id: JobId)
    requires ClientEnabled(cfg, s, act) && id in s.tables.jobs
    ensures Hist(Client1(cfg, s, act), id).chain == Hist(s, id).chain
  {}

  lemma ChainIdStays(cfg: Config, s: System, step: Step, id: JobId)
    requires Enabled(cfg, s, step) && id in s.tables.jobs
    ensures Hist(Apply(cfg, s, step), id).chain == Hist(s, id).chain
  {
    match step
    case Work(w, act) => WorkKeepsChainId(cfg, s, w, act, id);
    case Daemon(act) =>
      if !act.Reclaim? && !act.PromoteRetries? {
        DaemonKeepsRows(cfg, s, act);
      }
    case Client(act) => ClientKeepsChainId(cfg, s, act, id);
    case Env(act) =>
  }

  lemma MembersStay(cfg: Config, s: System, step: Step, id: JobId, c: JobId)
    requires Enabled(cfg, s, step) && id in s.tables.jobs
    ensures Member(Apply(cfg, s, step), id, c) <==> Member(s, id, c)
  {
    RowsPersist(cfg, s, step, id);
    ChainIdStays(cfg, s, step, id);
  }

  lemma DeathsAreCrashes(cfg: Config, s: System, step: Step, w: WorkerId)
    requires Enabled(cfg, s, step) && Alert(s, w) && !Alert(Apply(cfg, s, step), w)
    ensures step == Work(w, Crash) || (step == Work(w, Quit) && s.procs[w].phase.Idle?)
  {
    match step
    case Work(v, act) =>
      if v != w {
        WorkKeepsOtherWorkers(cfg, s, v, act, w);
      }
    case Daemon(act) => DaemonKeepsProcs(cfg, s, act);
    case Client(act) => ClientKeepsClocks(cfg, s, act);
    case Env(act) =>
  }

  ghost predicate FinishersLive(s: System, c: JobId) {
    forall w :: Between(s, w, c) ==> Alert(s, w)
  }

  lemma FinisherIsAlive(cfg: Config, s: System, step: Step, w: WorkerId, c: JobId)
    requires Enabled(cfg, s, step) && Grounded(s) && !EndsChain(s, step, c) && Between(Apply(cfg, s, step), w, c)
    requires FinishersLive(s, c)
    ensures Alert(Apply(cfg, s, step), w)
  {
    FinisherBefore(cfg, s, step, w);
    ProcessIsGrounded(s, w);
    MembersStay(cfg, s, step, s.procs[w].phase.id, c);
    if !Alert(Apply(cfg, s, step), w) {
      FinisherStays(cfg, s, step, w);
      assert Between(s, w, c);
      DeathsAreCrashes(cfg, s, step, w);
    }
  }

  lemma StepFinishersLive(cfg: Config, s: System, step: Step, c: JobId)
    requires Enabled(cfg, s, step) && Grounded(s) && !EndsChain(s, step, c) && FinishersLive(s, c)
    ensures FinishersLive(Apply(cfg, s, step), c)
  {
    forall w | Between(Apply(cfg, s, step), w, c) ensures Alert(Apply(cfg, s, step), w) {
      FinisherIsAlive(cfg, s, step, w, c);
    }
  }

  /** Only a live worker can begin to finish a job. */
  lemma FinisherStays(cfg: Config, s: System, step: Step, w: WorkerId)
    requires Enabled(cfg, s, step) && w in s.procs && w in Apply(cfg, s, step).procs
    requires Apply(cfg, s, step).procs[w].phase.Finishing? && !Apply(cfg, s, step).procs[w].live
    ensures s.procs[w].phase.Finishing?
  {
    match step
    case Work(v, act) => WorkFinisherStays(cfg, s, v, act, w);
    case Daemon(act) => DaemonKeepsProcs(cfg, s, act);
    case Client(act) => ClientKeepsClocks(cfg, s, act);
    case Env(act) =>
  }

  lemma WorkFinisherStays(cfg: Config, s: System, v: WorkerId, act: WorkerAct, w: WorkerId)
    requires WorkEnabled(cfg, s, v, act) && w in s.procs && w in Work1(cfg, s, v, act).procs
    requires Work1(cfg, s, v, act).procs[w].phase.Finishing? && !Work1(cfg, s, v, act).procs[w].live
    ensures s.procs[w].phase.Finishing?
  {
    if v != w {
      WorkMovesOneProcess(cfg, s, v, act);
    } else if WritesRow(act) {
      WriteKeepsPhaseId(cfg, s, v, act);
    }
  }

  lemma {:induction false} FinishersAreAlive(cfg: Config, ss: seq<System>, steps: seq<Step>, n: nat, c: JobId)
    requires Run(cfg, ss, steps) && Initial(ss[0]) && n < |ss|
    requires forall i {:trigger steps[i]} :: 0 <= i < n ==> !EndsChain(ss[i], steps[i], c)
    ensures FinishersLive(ss[n], c)
  {
    if n > 0 {
      FinishersAreAlive(cfg, ss, steps, n - 1, c);
      AlwaysGrounded(cfg, ss, steps, n - 1);
      StepFinishersLive(cfg, ss[n - 1], steps[n - 1], c);
    }
  }

  predicate DiedBetween(s: System, w: WorkerId, c: JobId) {
    Between(s, w, c) && !s.procs[w].live
  }

  lemma DeadFinisherStep(cfg: Config, s: System, step: Step, w: WorkerId, c: JobId)
    requires Enabled(cfg, s, step) && DiedBetween(s, w, c)
    ensures DiedBetween(Apply(cfg, s, step), w, c)
  {
    StepLeavesTheDead(cfg, s, step, w);
    MembersStay(cfg, s, step, s.procs[w].phase.id, c);
  }

  lemma {:induction false} DeadFinisherStays(cfg: Config, ss: seq<System>, steps: seq<Step>, i: nat, j: nat,
                                             w: WorkerId, c: JobId)
    requires Run(cfg, ss, steps) && i <= j < |ss| && DiedBetween(ss[i], w, c)
    ensures DiedBetween(ss[j], w, c)
    decreases j
  {
    if i < j {
      DeadFinisherStays(cfg, ss, steps, i, j - 1, w, c);
      DeadFinisherStep(cfg, ss[j - 1], steps[j - 1], w, c);
    }
  }

  /** Such a death ends the chain silently: no occurrence is open ever after. */
  lemma DeadFinisherEndsChain(cfg: Config, ss: seq<System>, steps: seq<Step>, i: nat, j: nat, w: WorkerId, c: JobId)
    requires ContinuingRun(cfg, ss, steps, c) && i <= j < |ss| && DiedBetween(ss[i], w, c)
    ensures forall id :: !Open(ss[j], id, c)
  {
    DeadFinisherStays(cfg, ss, steps, i, j, w, c);
    ChainAlways(cfg, ss, steps, j, c);
    assert OneEnd(ss[j], c);
  }

  /**
   At most one occurrence can still run; exactly one unless the end is closed, or in a worker's hands. That worker
   is alive, unless some worker died with this chain's next occurrence in its hands.
   */
  lemma OneLiveOccurrence(cfg: Config, ss: seq<System>, steps: seq<Step>, n: nat, c: JobId)
    requires ContinuingRun(cfg, ss, steps, c) && n < |ss|
    ensures var s := ss[n];
            && (forall i, j :: Runnable(s, i, c) && Runnable(s, j, c) ==> i == j)
            && ((exists i :: Member(s, i, c)) ==>
                  || (exists i :: Runnable(s, i, c))
                  || (exists i :: Closed(s, i, c))
                  || (exists w :: Between(s, w, c)))
            && ((forall i {:trigger steps[i]} :: 0 <= i < n ==> !EndsChain(ss[i], steps[i], c)) ==> FinishersLive(s, c))
  {
    var s := ss[n];
    ChainAlways(cfg, ss, steps, n, c);
    assert forall i :: Runnable(s, i, c) ==> Open(s, i, c);
    if i :| Open(s, i, c) {
      assert Runnable(s, i, c) || Closed(s, i, c);
    }
    if forall i {:trigger steps[i]} :: 0 <= i < n ==> !EndsChain(ss[i], steps[i], c) {
      FinishersAreAlive(cfg, ss, steps, n, c);
    }
  }

  // ---- Which chains continue ----

  /** An occurrence has the columns of the submission that started its chain. */
  predicate SharesSpec(s: System, id: JobId) {
    id in s.tables.jobs ==>
      && Hist(s, id).chain in s.tables.jobs
      && s.tables.jobs[id].spec == s.tables.jobs[Hist(s, id).chain].spec
  }

  lemma KnownRowShares(cfg: Config, s: System, step: Step, id: JobId)
    requires Enabled(cfg, s, step) && id in s.tables.jobs && SharesSpec(s, id)
    ensures SharesSpec(Apply(cfg, s, step), id)
  {
    ChainIdStays(cfg, s, step, id);
    RowsPersist(cfg, s, step, id);
    RowsPersist(cfg, s, step, Hist(s, id).chain);
  }

  lemma SuccessorShares(cfg: Config, s: System, w: WorkerId, act: WorkerAct)
    requires WorkEnabled(cfg, s, w, act) && act.Succession?
    requires s.procs[w].phase.id in s.tables.jobs && SharesSpec(s, s.procs[w].phase.id)
    ensures SharesSpec(Work1(cfg, s, w, act), act.next)
  {}

  lemma NewRowShares(cfg: Config, s: System, step: Step, id: JobId)
    requires Enabled(cfg, s, step) && Grounded(s) && id !in s.tables.jobs && forall x :: SharesSpec(s, x)
    ensures SharesSpec(Apply(cfg, s, step), id)
  {
    match step
    case Work(w, act) =>
      if act.Succession? && act.next == id {
        ProcessIsGrounded(s, w);
        SuccessorShares(cfg, s, w, act);
      } else {
        NoOtherRow(cfg, s, w, act, id);
      }
    case Daemon(act) => DaemonKeepsProcs(cfg, s, act);
    case Client(act) => RequestedRowShares(cfg, s, act, id);
    case Env(act) =>
  }

  lemma RequestedRowShares(cfg: Config, s: System, act: ClientAct, id: JobId)
    requires ClientEnabled(cfg, s, act) && id !in s.tables.jobs
    ensures SharesSpec(Client1(cfg, s, act), id)
  {}

  lemma NoOtherRow(cfg: Config, s: System, w: WorkerId, act: WorkerAct, id: JobId)
    requires WorkEnabled(cfg, s, w, act) && (act.Succession? ==> act.next != id) && id !in s.tables.jobs
    ensures id !in Work1(cfg, s, w, act).tables.jobs
  {
    if WritesRow(act) {
      WriteKeepsPhaseId(cfg, s, w, act);
    } else if !act.Succession? {
      QuietWorkKeepsRows(cfg, s, w, act);
    }
  }

  lemma {:induction false} AlwaysSharesSpec(cfg: Config, ss: seq<System>, steps: seq<Step>, n: nat)
    requires Run(cfg, ss, steps) && Initial(ss[0]) && n < |ss|
    ensures forall id :: SharesSpec(ss[n], id)
  {
    if n > 0 {
      AlwaysSharesSpec(cfg, ss, steps, n - 1);
      AlwaysGrounded(cfg, ss, steps, n - 1);
      forall id ensures SharesSpec(ss[n], id) {
        if id in ss[n - 1].tables.jobs {
          KnownRowShares(cfg, ss[n - 1], steps[n - 1], id);
        } else {
          NewRowShares(cfg, ss[n - 1], steps[n - 1], id);
        }
      }
    }
  }

  predicate RuleAnswers(cfg: Config, s: System, c: JobId) {
    c in s.tables.jobs ==> NextRun(cfg, s, c).Ok?
  }

  lemma SameNextRun(cfg: Config, s: System, id: JobId, c: JobId)
    requires Member(s, id, c) && SharesSpec(s, id)
    ensures c in s.tables.jobs && NextRun(cfg, s, id) == NextRun(cfg, s, c)
  {}

  /** A worker that skips only what cannot be computed never skips this chain while its rule has a next run. */
  lemma CarefulStepContinues(cfg: Config, s: System, step: Step, c: JobId)
    requires Enabled(cfg, s, step) && !NeedlessSkip(cfg, s, step) && forall id :: SharesSpec(s, id)
    requires RuleAnswers(cfg, s, c)
    ensures !SkipsChain(s, step, c)
  {
    if SkipsChain(s, step, c) {
      SameNextRun(cfg, s, s.procs[step.w].phase.id, c);
    }
  }

  /** So the workers of the system, which are careful, continue every chain whose rule always has a next run. */
  lemma CarefulRunContinues(cfg: Config, ss: seq<System>, steps: seq<Step>, c: JobId)
    requires TimelyRun(cfg, ss, steps) && Careful(cfg, ss, steps, 0)
    requires forall i :: 0 <= i < |ss| ==> RuleAnswers(cfg, ss[i], c)
    ensures ContinuingRun(cfg, ss, steps, c)
  {
    forall i {:trigger steps[i]} | 0 <= i < |steps| ensures !SkipsChain(ss[i], steps[i], c) {
      AlwaysSharesSpec(cfg, ss, steps, i);
      CarefulStepContinues(cfg, ss[i], steps[i], c);
    }
  }

  predicate RunsEvenly(spec: Spec) {
    spec.rule.Some? && KEYWORD <= Strip(spec.rule.value) && ParseInterval(spec.rule.value).Ok?
        && ParseInterval(spec.rule.value).value.Some?
  }

  lemma EvenRuleHasNextRun(cfg: Config, s: System, id: JobId)
    requires id in s.tables.jobs && RunsEvenly(s.tables.jobs[id].spec)
    ensures NextRun(cfg, s, id).Ok?
  {
    var rule := s.tables.jobs[id].spec.rule.value;
    IntervalStep(rule, s.now, ParseInterval(rule).value.value, cfg.cron);
  }

  /** A chain with an interval rule needs no assumption about the cron library. */
  lemma EvenChainContinues(cfg: Config, ss: seq<System>, steps: seq<Step>, c: JobId)
    requires TimelyRun(cfg, ss, steps) && Careful(cfg, ss, steps, 0)
    requires c in ss[|steps|].tables.jobs && RunsEvenly(ss[|steps|].tables.jobs[c].spec)
    ensures ContinuingRun(cfg, ss, steps, c)
  {
    forall i | 0 <= i < |ss| ensures RuleAnswers(cfg, ss[i], c) {
      if c in ss[i].tables.jobs {
        SpecStays(cfg, ss, steps, i, |steps|, c);
        EvenRuleHasNextRun(cfg, ss[i], c);
      }
    }
    CarefulRunContinues(cfg, ss, steps, c);
  }

  /** Each successor is scheduled strictly after the instant its time was computed. */
  lemma SuccessorIsLater(cfg: Config, s: System, w: WorkerId, next: JobId)
    requires CronMovesForward(cfg.cron) && WorkEnabled(cfg, s, w, Succession(next))
    ensures var row := Work1(cfg, s, w, Succession(next)).tables.jobs[next];
            row.scheduledFor.Some? && row.scheduledFor.value > s.now
  {
    NextRunIsLater(SpecOf(s, s.procs[w].phase.id).rule.value, s.now, cfg.cron);
  }
}
