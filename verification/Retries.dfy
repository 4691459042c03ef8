/** How long a job waits between its attempts, over whole runs. */
module Retries {
  import opened Domain
  import opened Backoff
  import opened Protocol
  import opened Frames
  import opened Attempts
  import opened Ownership

  /** The step records a failed attempt of the job that is not its last. */
  predicate SendsBack(s: System, step: Step, id: JobId) {
    && step.Work? && step.act.Fail? && InFlight(s, step.w, id)
    && AttemptOf(s, step.w) < SpecOf(s, id).maxAttempts
  }

  function AttemptAt(s: System, step: Step): nat
    requires step.Work? && step.w in s.procs && s.procs[step.w].phase.Executing?
  {
    AttemptOf(s, step.w)
  }

  /** From now until the time at which the row may be tried again. */
  function Wait(s: System, id: JobId): Time
    requires id in s.tables.jobs && s.tables.jobs[id].nextRetryAt.Some?
  {
    s.tables.jobs[id].nextRetryAt.value - s.now
  }

  /**
   The wait doubles with each attempt, is lengthened by half of the draw, and never exceeds five minutes; d is the
   doubled base delay.
   */
  lemma WaitExactly(cfg: Config, s: System, step: Step, id: JobId, d: real)
    requires Enabled(cfg, s, step) && SendsBack(s, step, id) && id in s.tables.jobs && AttemptAt(s, step) >= 1
    requires s.tables.jobs[id].spec.baseDelay > 0.0
    requires d == s.tables.jobs[id].spec.baseDelay * Pow2(AttemptAt(s, step) - 1)
    ensures var s' := Apply(cfg, s, step);
            && id in s'.tables.jobs && s'.tables.jobs[id].status == Retrying && s'.tables.jobs[id].nextRetryAt.Some?
            && s'.tables.jobs[id].attempts == s.tables.jobs[id].attempts
            && Wait(s', id) == Min(300.0, (1.0 + step.act.draw / 2.0) * d)
  {
    WaitIsDelay(cfg, s, step, id);
    DelayExactly(AttemptAt(s, step), s.tables.jobs[id].spec.baseDelay, 300.0, Some(step.act.draw), d);
  }

  lemma WaitIsDelay(cfg: Config, s: System, step: Step, id: JobId)
    requires Enabled(cfg, s, step) && SendsBack(s, step, id) && id in s.tables.jobs
    ensures var s' := Apply(cfg, s, step);
            && id in s'.tables.jobs && s'.tables.jobs[id].status == Retrying && s'.tables.jobs[id].nextRetryAt.Some?
            && s'.tables.jobs[id].attempts == s.tables.jobs[id].attempts
            && Wait(s', id) == Delay(AttemptAt(s, step), s.tables.jobs[id].spec.baseDelay, 300.0, Some(step.act.draw))
  {}

  // ---- Attempt numbers grow ----

  /** Attempt a is over: the row has counted it, and any execution that is going on has a higher number. */
  predicate Past(s: System, id: JobId, a: nat) {
    && id in s.tables.jobs && s.tables.jobs[id].attempts >= a
    && (s.tables.jobs[id].status == Running ==> s.tables.jobs[id].attempts > a)
  }

  lemma OwnWritePast(cfg: Config, s: System, w: WorkerId, act: WorkerAct, id: JobId, a: nat)
    requires WorkEnabled(cfg, s, w, act) && WritesRow(act) && s.procs[w].phase.id == id && Past(s, id, a)
    ensures Past(Work1(cfg, s, w, act), id, a)
  {}

  lemma WorkPast(cfg: Config, s: System, w: WorkerId, act: WorkerAct, id: JobId, a: nat)
    requires WorkEnabled(cfg, s, w, act) && Past(s, id, a)
    ensures Past(Work1(cfg, s, w, act), id, a)
  {
    if WritesRow(act) {
      if s.procs[w].phase.id == id {
        OwnWritePast(cfg, s, w, act, id, a);
      } else {
        WriteKeepsOthers(cfg, s, w, act, id);
      }
    } else if act.Succession? {
      assert act.next != id;
    } else {
      QuietWorkKeepsRows(cfg, s, w, act);
    }
  }

  lemma DaemonPast(cfg: Config, s: System, act: DaemonAct, id: JobId, a: nat)
    requires DaemonEnabled(s, act) && Past(s, id, a)
    ensures Past(Daemon1(cfg, s, act), id, a)
  {
    if !act.Reclaim? && !act.PromoteRetries? {
      DaemonKeepsRows(cfg, s, act);
    }
  }

  lemma ClientPast(cfg: Config, s: System, act: ClientAct, id: JobId, a: nat)
    requires ClientEnabled(cfg, s, act) && !Replays(s, Client(act), id) && Past(s, id, a)
    ensures Past(Client1(cfg, s, act), id, a)
  {}

  lemma StepPast(cfg: Config, s: System, step: Step, id: JobId, a: nat)
    requires Enabled(cfg, s, step) && !Replays(s, step, id) && Past(s, id, a)
    ensures Past(Apply(cfg, s, step), id, a)
  {
    match step
    case Work(w, act) => WorkPast(cfg, s, w, act, id, a);
    case Daemon(act) => DaemonPast(cfg, s, act, id, a);
    case Client(act) => ClientPast(cfg, s, act, id, a);
    case Env(act) =>
  }

  lemma {:induction false} StaysPast(cfg: Config, ss: seq<System>, steps: seq<Step>, i: nat, j: nat, id: JobId, a: nat)
    requires Run(cfg, ss, steps) && i <= j < |ss| && Past(ss[i], id, a)
    requires forall k {:trigger steps[k]} :: i <= k < j ==> !Replays(ss[k], steps[k], id)
    ensures Past(ss[j], id, a)
    decreases j
  {
    if i < j {
      StaysPast(cfg, ss, steps, i, j - 1, id, a);
      StepPast(cfg, ss[j - 1], steps[j - 1], id, a);
    }
  }

  /** The executor of a timely run carries the attempt number that its row shows. */
  lemma ExecutorKnowsItsNumber(cfg: Config, ss: seq<System>, steps: seq<Step>, n: nat, id: JobId)
    requires TimelyRun(cfg, ss, steps) && n < |steps| && SendsBack(ss[n], steps[n], id)
    ensures id in ss[n].tables.jobs && ss[n].tables.jobs[id].status == Running
    ensures ss[n].tables.jobs[id].attempts == AttemptAt(ss[n], steps[n])
  {
    MutualExclusion(cfg, ss, steps, n, id);
    assert Alert(ss[n], steps[n].w) && InFlight(ss[n], steps[n].w, id);
  }

  lemma AttemptIsOver(cfg: Config, s: System, step: Step, id: JobId)
    requires Enabled(cfg, s, step) && SendsBack(s, step, id)
    requires id in s.tables.jobs && s.tables.jobs[id].attempts == AttemptAt(s, step) >= 1
    ensures Past(Apply(cfg, s, step), id, AttemptAt(s, step))
  {
    WaitIsDelay(cfg, s, step, id);
  }

  ghost predicate NumberedFromOne(s: System) {
    forall w :: w in s.procs && s.procs[w].phase.Executing? ==> AttemptOf(s, w) >= 1
  }

  lemma StepNumbers(cfg: Config, s: System, step: Step)
    requires Enabled(cfg, s, step) && NumberedFromOne(s)
    ensures NumberedFromOne(Apply(cfg, s, step))
  {
    match step
    case Work(w, act) =>
      WorkMovesOneProcess(cfg, s, w, act);
      if !act.LockIt? {
        QuietWorkStartsNothing(cfg, s, w, act);
      }
    case Daemon(act) => DaemonKeepsProcs(cfg, s, act);
    case Client(act) => ClientKeepsClocks(cfg, s, act);
    case Env(act) =>
  }

  lemma {:induction false} NumbersStartAtOne(cfg: Config, ss: seq<System>, steps: seq<Step>, n: nat)
    requires Run(cfg, ss, steps) && Initial(ss[0]) && n < |ss|
    ensures NumberedFromOne(ss[n])
  {
    if n > 0 {
      NumbersStartAtOne(cfg, ss, steps, n - 1);
      StepNumbers(cfg, ss[n - 1], steps[n - 1]);
    }
  }

  // ---- The waits of one job ----

  /** In any run: a retry at a higher attempt number waits longer, until five minutes are reached. */
  lemma HigherNumbersWaitLonger(cfg: Config, ss: seq<System>, steps: seq<Step>, i: nat, j: nat, id: JobId)
    requires Run(cfg, ss, steps) && i < j < |steps| && SendsBack(ss[i], steps[i], id) && SendsBack(ss[j], steps[j], id)
    requires 1 <= AttemptAt(ss[i], steps[i]) < AttemptAt(ss[j], steps[j])
    requires id in ss[i].tables.jobs && ss[i].tables.jobs[id].spec.baseDelay > 0.0
    ensures Waited(ss[i + 1], id) && Waited(ss[j + 1], id) && Wait(ss[i + 1], id) <= Wait(ss[j + 1], id) <= 300.0
    ensures Wait(ss[i + 1], id) < 300.0 ==> Wait(ss[i + 1], id) < Wait(ss[j + 1], id)
  {
    SpecStays(cfg, ss, steps, i, j, id);
    WaitIsDelay(cfg, ss[i], steps[i], id);
    WaitIsDelay(cfg, ss[j], steps[j], id);
    DelaysGrow(AttemptAt(ss[i], steps[i]), AttemptAt(ss[j], steps[j]), ss[i].tables.jobs[id].spec.baseDelay, 300.0,
        Some(steps[i].act.draw), Some(steps[j].act.draw));
  }

  predicate Waited(s: System, id: JobId) {
    id in s.tables.jobs && s.tables.jobs[id].nextRetryAt.Some?
  }

  /** In timely runs the waits of a job grow from each failed attempt to the next until it is replayed. */
  lemma RetriesBackOff(cfg: Config, ss: seq<System>, steps: seq<Step>, i: nat, j: nat, id: JobId)
    requires TimelyRun(cfg, ss, steps) && i < j < |steps|
    requires SendsBack(ss[i], steps[i], id) && SendsBack(ss[j], steps[j], id)
    requires forall k {:trigger steps[k]} :: i < k < j ==> !Replays(ss[k], steps[k], id)
    requires SpecOf(ss[i], id).baseDelay > 0.0
    ensures AttemptAt(ss[i], steps[i]) < AttemptAt(ss[j], steps[j])
    ensures Waited(ss[i + 1], id) && Waited(ss[j + 1], id) && Wait(ss[i + 1], id) <= Wait(ss[j + 1], id) <= 300.0
    ensures Wait(ss[i + 1], id) < 300.0 ==> Wait(ss[i + 1], id) < Wait(ss[j + 1], id)
  {
    ExecutorKnowsItsNumber(cfg, ss, steps, i, id);
    ExecutorKnowsItsNumber(cfg, ss, steps, j, id);
    NumbersStartAtOne(cfg, ss, steps, i);
    AttemptIsOver(cfg, ss[i], steps[i], id);
    StaysPast(cfg, ss, steps, i + 1, j, id, AttemptAt(ss[i], steps[i]));
    HigherNumbersWaitLonger(cfg, ss, steps, i, j, id);
  }
}
