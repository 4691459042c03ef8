/** Runs that show why the assumptions cannot be dropped, and that waiting by priority fails without any assumption. */
module Counterexamples {
  import opened Domain
  import opened Tables
  import opened Queues
  import opened Protocol
  import opened Custody
  import opened Routing
  import opened Traces

  const SPEC := Spec("echo", "{}", 1.0, 0, 2, None)

  function Blank(): System {
    System(NO_ROWS, NO_ENTRIES, 0.0, map[], NO_HANDS, multiset{}, map[], 0.0, 0.0, 0.0)
  }

  /** One job with this row, waiting in these places, and one worker in this phase. */
  ghost predicate Scene(s: System, row: Job, normal: seq<JobId>, waiting: multiset<JobId>, phase: Phase) {
    && s.tables.jobs == map[7 := row] && row.spec == SPEC
    && s.queues.high == [] && s.queues.normal == normal && s.queues.low == [] && s.queues.scheduled == map[]
    && s.hands == NO_HANDS.(byPriority := waiting)
    && 2 !in s.tables.workers && s.procs.Keys == {1} && s.procs[1].live && s.procs[1].phase == phase
  }

  lemma Waiting7(cfg: Config) returns (ss: seq<System>, steps: seq<Step>)
    ensures Run(cfg, ss, steps) && ss[0] == Blank()
    ensures Scene(ss[|steps|], NewRow(SPEC, None), [7], multiset{}, Idle) && ss[|steps|].now == 0.0
    ensures ss[|steps|].removals == multiset{} && ss[|steps|].tables.letters == map[]
  {
    ss, steps := [Blank()], [];
    ss, steps := Extend(cfg, ss, steps, Work(1, Register));
    ss, steps := Extend(cfg, ss, steps, Client(Submit(7, SPEC, None)));
    assert Scene(ss[2], NewRow(SPEC, None), [], multiset{7}, Idle);
    ss, steps := Extend(cfg, ss, steps, Daemon(Push(ByPriority, 7)));
  }

  lemma Reserved7(cfg: Config) returns (ss: seq<System>, steps: seq<Step>)
    ensures Run(cfg, ss, steps) && ss[0] == Blank()
    ensures Scene(ss[|steps|], NewRow(SPEC, None), [], multiset{}, Reserved(7)) && ss[|steps|].now == 0.0
    ensures ss[|steps|].removals == multiset{} && ss[|steps|].tables.letters == map[]
  {
    ss, steps := Waiting7(cfg);
    ss, steps := Extend(cfg, ss, steps, Work(1, ReserveFrom(Default)));
  }

  /** A worker that dies between popping an id and locking its row takes the job with it. */
  lemma CrashAfterPopLosesJob(cfg: Config) returns (ss: seq<System>, steps: seq<Step>)
    ensures Run(cfg, ss, steps) && Initial(ss[0])
    ensures !NothingLost(ss[|steps|])
  {
    ss, steps := Reserved7(cfg);
    ss, steps := Extend(cfg, ss, steps, Work(1, Crash));
    var s := ss[|steps|];
    assert !Carried(s, 7);
    assert !Kept(s, 7);
  }

  // ---- Cancelling a job that is RUNNING ----

  lemma CancelledWhileRunning(cfg: Config) returns (ss: seq<System>, steps: seq<Step>, row: Job)
    ensures Run(cfg, ss, steps) && ss[0] == Blank()
    ensures Scene(ss[|steps|], row, [], multiset{}, Executing(7, 1, 0.0)) && row.status == Running
    ensures ss[|steps|].now == 0.0 && ss[|steps|].removals == AllRemovals(7) && ss[|steps|].tables.letters == map[]
  {
    ss, steps := Reserved7(cfg);
    ss, steps := Extend(cfg, ss, steps, Work(1, LockIt));
    row := Locked(NewRow(SPEC, None), 1, 0.0);
    assert Scene(ss[|steps|], row, [], multiset{}, Executing(7, 1, 0.0));
    ss, steps := Extend(cfg, ss, steps, Client(CancelRow(7)));
  }

  lemma FailedAfterCancel(cfg: Config) returns (ss: seq<System>, steps: seq<Step>, row: Job)
    ensures Run(cfg, ss, steps) && ss[0] == Blank()
    ensures Scene(ss[|steps|], row, [], multiset{}, Settled(7)) && row.status == Retrying && LocksMatch(row)
    ensures row.nextRetryAt.Some? && ss[|steps|].removals == AllRemovals(7) && ss[|steps|].now == 0.0
  {
    ss, steps, row := CancelledWhileRunning(cfg);
    ss, steps := Extend(cfg, ss, steps, Work(1, Fail("boom", 0.0, 0)));
    row := ss[|steps|].tables.jobs[7];
  }

  lemma DueAfterCancel(cfg: Config) returns (ss: seq<System>, steps: seq<Step>, row: Job)
    ensures Run(cfg, ss, steps) && ss[0] == Blank()
    ensures Scene(ss[|steps|], row, [], multiset{}, Settled(7)) && row.status == Retrying && LocksMatch(row)
    ensures ss[|steps|].removals == AllRemovals(7) && DueRetries(ss[|steps|].tables, ss[|steps|].now) == {7}
  {
    ss, steps, row := FailedAfterCancel(cfg);
    var due := row.nextRetryAt.value;
    ss, steps := Extend(cfg, ss, steps, Env(Tick(if due < 0.0 then 0.0 else due)));
    assert RetryDue(ss[|steps|].tables, 7, ss[|steps|].now);
  }

  lemma RetriedAfterCancel(cfg: Config) returns (ss: seq<System>, steps: seq<Step>, row: Job)
    ensures Run(cfg, ss, steps) && ss[0] == Blank()
    ensures Scene(ss[|steps|], row, [7], multiset{}, Settled(7)) && row.status == Pending && LocksMatch(row)
    ensures ss[|steps|].removals == AllRemovals(7)
  {
    ss, steps, row := DueAfterCancel(cfg);
    ss, steps := Extend(cfg, ss, steps, Daemon(PromoteRetries(ByScheduler)));
    row := ss[|steps|].tables.jobs[7];
    assert Scene(ss[|steps|], row, [], multiset{7}, Settled(7)) && row.status == Pending;
    ss, steps := Extend(cfg, ss, steps, Daemon(Push(ByPriority, 7)));
  }

  /** The cancellation leaves the RUNNING row alone, as documented, and its late removal then drops the retry. */
  lemma CancelOfRunningJobLosesIt(cfg: Config) returns (ss: seq<System>, steps: seq<Step>)
    ensures Run(cfg, ss, steps) && Initial(ss[0])
    ensures |steps| > 0 && steps[|steps| - 1] == Client(Remove(7, Waiting(Default)))
    ensures NothingLost(ss[|steps| - 1]) && !NothingLost(ss[|steps|])
  {
    var row;
    ss, steps, row := RetriedAfterCancel(cfg);
    LateRemoval(cfg, ss[|steps|], row);
    ss, steps := Extend(cfg, ss, steps, Client(Remove(7, Waiting(Default))));
  }

  lemma LateRemoval(cfg: Config, s: System, row: Job)
    requires Scene(s, row, [7], multiset{}, Settled(7)) && row.status == Pending && LocksMatch(row)
    requires s.removals == AllRemovals(7)
    ensures NothingLost(s)
    ensures Enabled(cfg, s, Client(Remove(7, Waiting(Default))))
    ensures !NothingLost(Apply(cfg, s, Client(Remove(7, Waiting(Default)))))
  {
    assert Queued(s.queues, 7);
    var s' := Client1(cfg, s, Remove(7, Waiting(Default)));
    assert s'.queues.normal == [];
    assert !Carried(s', 7);
    assert !Kept(s', 7);
  }

  // ---- A worker that outlives its lock ----

  ghost predicate Duo(s: System, row: Job, normal: seq<JobId>, waiting: multiset<JobId>, first: Phase, second: Phase) {
    && s.tables.jobs == map[7 := row] && row.spec == SPEC
    && s.queues.normal == normal && s.hands == NO_HANDS.(byPriority := waiting)
    && s.procs.Keys == {1, 2} && s.procs[1].live && s.procs[2].live
    && s.procs[1].phase == first && s.procs[2].phase == second
  }

  lemma LockedByFirst(cfg: Config) returns (ss: seq<System>, steps: seq<Step>, row: Job)
    ensures Run(cfg, ss, steps) && ss[0] == Blank()
    ensures Duo(ss[|steps|], row, [], multiset{}, Executing(7, 1, 0.0), Idle)
    ensures row.status == Running && row.lockedAt == Some(0.0) && row.attempts == 1
    ensures ss[|steps|].now == 0.0 && ss[|steps|].tables.letters == map[]
  {
    ss, steps := Reserved7(cfg);
    ss, steps := Extend(cfg, ss, steps, Work(1, LockIt));
    row := Locked(NewRow(SPEC, None), 1, 0.0);
    assert Scene(ss[|steps|], row, [], multiset{}, Executing(7, 1, 0.0));
    ss, steps := Extend(cfg, ss, steps, Work(2, Register));
  }

  lemma OverdueAtFirst(cfg: Config) returns (ss: seq<System>, steps: seq<Step>, row: Job)
    ensures Run(cfg, ss, steps) && ss[0] == Blank()
    ensures Duo(ss[|steps|], row, [], multiset{}, Executing(7, 1, 0.0), Idle)
    ensures row.status == Running && ss[|steps|].tables.letters == map[]
    ensures StaleJobs(ss[|steps|].tables, cfg.visibilityTimeout, ss[|steps|].now) == {7}
  {
    ss, steps, row := LockedByFirst(cfg);
    var late := if cfg.visibilityTimeout < 0.0 then 0.0 else cfg.visibilityTimeout + 1.0;
    ss, steps := Extend(cfg, ss, steps, Env(Tick(late)));
    assert Stale(ss[|steps|].tables, 7, cfg.visibilityTimeout, ss[|steps|].now);
  }

  lemma ReclaimedFromFirst(cfg: Config) returns (ss: seq<System>, steps: seq<Step>, row: Job)
    ensures Run(cfg, ss, steps) && ss[0] == Blank()
    ensures Duo(ss[|steps|], row, [], multiset{7}, Executing(7, 1, 0.0), Idle)
    ensures row.status == Pending && ss[|steps|].tables.letters == map[]
  {
    ss, steps, row := OverdueAtFirst(cfg);
    ss, steps := Extend(cfg, ss, steps, Daemon(Reclaim(ByScheduler)));
    row := Released(row, Pending);
  }

  lemma ReservedBySecond(cfg: Config) returns (ss: seq<System>, steps: seq<Step>, row: Job)
    ensures Run(cfg, ss, steps) && ss[0] == Blank()
    ensures Duo(ss[|steps|], row, [], multiset{}, Executing(7, 1, 0.0), Reserved(7))
    ensures row.status == Pending && ss[|steps|].tables.letters == map[]
  {
    ss, steps, row := ReclaimedFromFirst(cfg);
    ss, steps := Extend(cfg, ss, steps, Daemon(Push(ByPriority, 7)));
    assert Duo(ss[|steps|], row, [7], multiset{}, Executing(7, 1, 0.0), Idle);
    ss, steps := Extend(cfg, ss, steps, Work(2, ReserveFrom(Default)));
  }

  lemma SucceededBySecond(cfg: Config) returns (ss: seq<System>, steps: seq<Step>, row: Job)
    ensures Run(cfg, ss, steps) && ss[0] == Blank()
    ensures Duo(ss[|steps|], row, [], multiset{}, Executing(7, 1, 0.0), Settled(7))
    ensures row.status == Success && row.result == Some("done") && ss[|steps|].tables.letters == map[]
  {
    ss, steps, row := ReservedBySecond(cfg);
    ss, steps := Extend(cfg, ss, steps, Work(2, LockIt));
    ss, steps := Extend(cfg, ss, steps, Work(2, Succeed(Some("done"))));
    row := ss[|steps|].tables.jobs[7];
  }

  /** Without the timing assumption SUCCESS is not final: the first worker's failure re-opens the job. */
  lemma ZombieReopensSuccess(cfg: Config) returns (ss: seq<System>, steps: seq<Step>)
    ensures Run(cfg, ss, steps) && Initial(ss[0]) && |steps| > 0
    ensures 7 in ss[|steps| - 1].tables.jobs && ss[|steps| - 1].tables.jobs[7].status == Success
    ensures 7 in ss[|steps|].tables.jobs && ss[|steps|].tables.jobs[7].status == Retrying
  {
    var row;
    ss, steps, row := SucceededBySecond(cfg);
    ss, steps := Extend(cfg, ss, steps, Work(1, Fail("late", 0.0, 0)));
  }

  /** Nor is the stored result: the first worker's late success replaces it, and the status says nothing. */
  lemma ZombieOverwritesResult(cfg: Config) returns (ss: seq<System>, steps: seq<Step>)
    ensures Run(cfg, ss, steps) && Initial(ss[0]) && |steps| > 0
    ensures 7 in ss[|steps| - 1].tables.jobs && 7 in ss[|steps|].tables.jobs
    ensures ss[|steps| - 1].tables.jobs[7].status == ss[|steps|].tables.jobs[7].status == Success
    ensures ss[|steps| - 1].tables.jobs[7].result == Some("done") && ss[|steps|].tables.jobs[7].result == Some("late")
  {
    var row;
    ss, steps, row := SucceededBySecond(cfg);
    ss, steps := Extend(cfg, ss, steps, Work(1, Succeed(Some("late"))));
  }

  // ---- An urgent job behind the others ----

  const URGENT := Spec("echo", "{}", 1.0, 10, 2, None)

  lemma UrgentScheduled(cfg: Config) returns (ss: seq<System>, steps: seq<Step>)
    ensures Run(cfg, ss, steps) && ss[0] == Blank()
    ensures ss[|steps|].tables.jobs == map[7 := NewRow(URGENT, Some(0.0))] && ss[|steps|].now == 0.0
    ensures ss[|steps|].queues == NO_ENTRIES.(scheduled := map[7 := 0.0])
  {
    ss, steps := [Blank()], [];
    ss, steps := Extend(cfg, ss, steps, Client(Submit(7, URGENT, Some(0.0))));
    assert ss[1].tables.jobs == map[7 := NewRow(URGENT, Some(0.0))] && ss[1].now == 0.0;
    assert ss[1].queues == NO_ENTRIES && 7 in ss[1].hands.On(OnCalendar);
    ss, steps := Extend(cfg, ss, steps, Daemon(Push(OnCalendar, 7)));
  }

  /** A scheduled job of priority 10 waits in the default tier once it is due. */
  lemma UrgentJobWaitsInDefault(cfg: Config) returns (ss: seq<System>, steps: seq<Step>)
    ensures Run(cfg, ss, steps) && Initial(ss[0])
    ensures var s := ss[|steps|];
            && 7 in s.tables.jobs && s.tables.jobs[7].spec.priority == 10 && s.tables.jobs[7].status == Pending
            && s.queues.high == [] && 7 in s.queues.normal && !OwnTierAt(s, 7)
  {
    ss, steps := UrgentScheduled(cfg);
    PromotionGains(ss[|steps|].queues, 0.0, 7);
    ss, steps := Extend(cfg, ss, steps, Daemon(PromoteDue));
    InDefault(ss[|steps|]);
  }

  lemma InDefault(s: System)
    requires 7 in s.queues.normal && SpecOf(s, 7).priority > 0
    ensures !OwnTierAt(s, 7)
  {
    assert 7 in s.queues.Lane(Default);
  }
}
