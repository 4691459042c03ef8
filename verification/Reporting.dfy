/** What the row of a worker tells: since when it runs, when it was last heard of, and how many jobs it has done. */
module Reporting {
  import opened Domain
  import opened Protocol
  import opened Frames

  predicate IsOutcome(step: Step, w: WorkerId) {
    step.Work? && step.w == w && (step.act.Succeed? || step.act.Fail?)
  }

  /** How many of the first n steps record an outcome of this worker. */
  function Outcomes(steps: seq<Step>, n: nat, w: WorkerId): nat
    requires n <= |steps|
  {
    if n == 0 then 0 else Outcomes(steps, n - 1, w) + if IsOutcome(steps[n - 1], w) then 1 else 0
  }

  function Counter(s: System, w: WorkerId): nat {
    if w in s.procs then s.procs[w].processed else 0
  }

  lemma WorkCountsOutcomes(cfg: Config, s: System, v: WorkerId, act: WorkerAct, w: WorkerId)
    requires WorkEnabled(cfg, s, v, act)
    ensures Counter(Work1(cfg, s, v, act), w) == Counter(s, w) + if IsOutcome(Work(v, act), w) then 1 else 0
  {
    if v != w {
      WorkMovesOneProcess(cfg, s, v, act);
    }
  }

  lemma StepCountsOutcomes(cfg: Config, s: System, step: Step, w: WorkerId)
    requires Enabled(cfg, s, step)
    ensures Counter(Apply(cfg, s, step), w) == Counter(s, w) + if IsOutcome(step, w) then 1 else 0
  {
    match step
    case Work(v, act) => WorkCountsOutcomes(cfg, s, v, act, w);
    case Daemon(act) => DaemonKeepsProcs(cfg, s, act);
    case Client(act) => ClientKeepsClocks(cfg, s, act);
    case Env(act) =>
  }

  /** A worker's counter is the number of outcomes it has recorded, failures included. */
  lemma {:induction false} CounterIsOutcomes(cfg: Config, ss: seq<System>, steps: seq<Step>, n: nat, w: WorkerId)
    requires Run(cfg, ss, steps) && Initial(ss[0]) && n < |ss|
    ensures Counter(ss[n], w) == Outcomes(steps, n, w)
  {
    if n > 0 {
      CounterIsOutcomes(cfg, ss, steps, n - 1, w);
      StepCountsOutcomes(cfg, ss[n - 1], steps[n - 1], w);
    }
  }

  // ---- The row ----

  /** The row stays with its start time; its own heartbeat refreshes it, anything else can only declare it dead. */
  predicate RowFollows(s: System, s': System, step: Step, w: WorkerId)
    requires w in s.tables.workers
  {
    && w in s'.tables.workers
    && var row, row' := s.tables.workers[w], s'.tables.workers[w];
       if step == Work(w, Beat) then row' == WorkerRow(Alive, s.now, Counter(s, w), row.startedAt)
       else row' == row || row' == row.(status := Dead)
  }

  lemma WorkFollows(cfg: Config, s: System, v: WorkerId, act: WorkerAct, w: WorkerId)
    requires WorkEnabled(cfg, s, v, act) && w in s.tables.workers
    ensures RowFollows(s, Work1(cfg, s, v, act), Work(v, act), w)
  {
    if v != w {
      WorkKeepsOtherWorkers(cfg, s, v, act, w);
    } else if !act.Register? && !act.Beat? && !act.Quit? {
      WorkKeepsWorkers(cfg, s, v, act);
    }
  }

  lemma DaemonFollows(cfg: Config, s: System, act: DaemonAct, w: WorkerId)
    requires DaemonEnabled(s, act) && w in s.tables.workers
    ensures RowFollows(s, Daemon1(cfg, s, act), Daemon(act), w)
  {}

  lemma StepFollows(cfg: Config, s: System, step: Step, w: WorkerId)
    requires Enabled(cfg, s, step) && w in s.tables.workers
    ensures RowFollows(s, Apply(cfg, s, step), step, w)
  {
    match step
    case Work(v, act) => WorkFollows(cfg, s, v, act, w);
    case Daemon(act) => DaemonFollows(cfg, s, act, w);
    case Client(act) => ClientKeepsClocks(cfg, s, act);
    case Env(act) =>
  }

  /** A worker registers as alive, started now, with nothing done. */
  lemma RegistrationIsFresh(cfg: Config, s: System, w: WorkerId)
    requires WorkEnabled(cfg, s, w, Register)
    ensures var s' := Work1(cfg, s, w, Register);
            w in s'.tables.workers && s'.tables.workers[w] == WorkerRow(Alive, s.now, 0, s.now)
  {}

  lemma {:induction false} StartTimeStays(cfg: Config, ss: seq<System>, steps: seq<Step>, i: nat, j: nat, w: WorkerId)
    requires Run(cfg, ss, steps) && i <= j < |ss| && w in ss[i].tables.workers
    ensures w in ss[j].tables.workers && ss[j].tables.workers[w].startedAt == ss[i].tables.workers[w].startedAt
    decreases j
  {
    if i < j {
      StartTimeStays(cfg, ss, steps, i, j - 1, w);
      StepFollows(cfg, ss[j - 1], steps[j - 1], w);
    }
  }

  /** Right after a heartbeat the row tells the number of outcomes that the worker has recorded. */
  lemma BeatReports(cfg: Config, ss: seq<System>, steps: seq<Step>, n: nat, w: WorkerId)
    requires Run(cfg, ss, steps) && Initial(ss[0]) && n < |steps| && steps[n] == Work(w, Beat)
    ensures w in ss[n + 1].tables.workers && ss[n + 1].tables.workers[w].status == Alive
    ensures ss[n + 1].tables.workers[w].lastHeartbeat == ss[n].now
    ensures ss[n + 1].tables.workers[w].jobsProcessed == Outcomes(steps, n, w)
  {
    CounterIsOutcomes(cfg, ss, steps, n, w);
  }
}
