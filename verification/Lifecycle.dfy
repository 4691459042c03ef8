/** The job state machine over whole runs: which transitions happen, what is final, and when retries start. */
module Lifecycle {
  import opened Domain
  import opened Tables
  import opened Protocol
  import opened Frames
  import opened Custody
  import opened Grounding
  import opened Attempts
  import opened Ownership
  import opened References
  import opened Processing

  // ---- Every dead letter status has a record, zombies or not ----

  ghost predicate Recorded(s: System, id: JobId) {
    id in s.tables.jobs && s.tables.jobs[id].status == DeadLetter ==> exists l :: LetterFor(s, l, id)
  }

  lemma LettersStay(s: System, s': System, id: JobId)
    requires Recorded(s, id)
    requires id in s'.tables.jobs && s'.tables.jobs[id].status == DeadLetter ==>
      id in s.tables.jobs && s.tables.jobs[id].status == DeadLetter
    requires forall l :: LetterFor(s, l, id) ==> LetterFor(s', l, id)
    ensures Recorded(s', id)
  {}

  lemma FailRecords(s: System, w: WorkerId, job: JobId, attempt: nat, error: string, draw: real, letter: LetterId,
                    id: JobId)
    requires w in s.procs && letter !in s.tables.letters && Recorded(s, id)
    ensures Recorded(FailStep(s, w, job, attempt, error, draw, letter), id)
  {
    var s' := FailStep(s, w, job, attempt, error, draw, letter);
    if job == id && attempt >= SpecOf(s, job).maxAttempts && id in s.tables.jobs {
      assert LetterFor(s', letter, id);
    } else {
      LettersStay(s, s', id);
    }
  }

  lemma WorkRecords(cfg: Config, s: System, w: WorkerId, act: WorkerAct, id: JobId)
    requires WorkEnabled(cfg, s, w, act) && Recorded(s, id)
    ensures Recorded(Work1(cfg, s, w, act), id)
  {
    if act.Fail? {
      FailRecords(s, w, s.procs[w].phase.id, s.procs[w].phase.attempt, act.error, act.draw, act.letter, id);
    } else {
      LettersStay(s, Work1(cfg, s, w, act), id);
    }
  }

  lemma DaemonRecords(cfg: Config, s: System, act: DaemonAct, id: JobId)
    requires DaemonEnabled(s, act) && Recorded(s, id)
    ensures Recorded(Daemon1(cfg, s, act), id)
  {
    LettersStay(s, Daemon1(cfg, s, act), id);
  }

  lemma ReplayRecords(s: System, letter: LetterId, id: JobId)
    requires letter in s.tables.letters && Recorded(s, id)
    ensures Recorded(ReplayStep(s, letter), id)
  {
    if s.tables.letters[letter].jobId != id {
      LettersStay(s, ReplayStep(s, letter), id);
    }
  }

  lemma ClientRecords(cfg: Config, s: System, act: ClientAct, id: JobId)
    requires ClientEnabled(cfg, s, act) && Recorded(s, id)
    ensures Recorded(Client1(cfg, s, act), id)
  {
    if act.Replay? {
      ReplayRecords(s, act.letter, id);
    } else {
      LettersStay(s, Client1(cfg, s, act), id);
    }
  }

  lemma StepRecords(cfg: Config, s: System, step: Step, id: JobId)
    requires Enabled(cfg, s, step) && Recorded(s, id)
    ensures Recorded(Apply(cfg, s, step), id)
  {
    match step
    case Work(w, act) => WorkRecords(cfg, s, w, act, id);
    case Daemon(act) => DaemonRecords(cfg, s, act, id);
    case Client(act) => ClientRecords(cfg, s, act, id);
    case Env(act) => LettersStay(s, Apply(cfg, s, step), id);
  }

  lemma {:induction false} DeadLetterIsRecorded(cfg: Config, ss: seq<System>, steps: seq<Step>, n: nat, id: JobId)
    requires Run(cfg, ss, steps) && Initial(ss[0]) && n < |ss|
    ensures Recorded(ss[n], id)
  {
    if n > 0 {
      DeadLetterIsRecorded(cfg, ss, steps, n - 1, id);
      StepRecords(cfg, ss[n - 1], steps[n - 1], id);
    }
  }

  // ---- Attempts and retry times in timely runs ----

  predicate PastRetry(row: Job, now: Time) {
    row.nextRetryAt.Some? ==> row.nextRetryAt.value <= now
  }

  /** A replay restarts the attempts but keeps the reclaims, so the bound only gets looser. */
  predicate SteadyAt(s: System, id: JobId) {
    id in s.tables.jobs ==>
      var row := s.tables.jobs[id];
      var most := row.spec.maxAttempts + Hist(s, id).reclaims;
      match row.status
      case Pending => row.attempts < most && PastRetry(row, s.now)
      case Running => 1 <= row.attempts <= most && PastRetry(row, s.now)
      case Retrying => row.attempts < row.spec.maxAttempts
      case DeadLetter => row.spec.maxAttempts <= row.attempts <= most
      case _ => row.attempts <= most
  }

  /** In exact states the lock statement only ever finds PENDING rows. */
  lemma LockFindsPending(s: System, w: WorkerId, id: JobId)
    requires w in s.procs && s.procs[w].phase == Reserved(id) && ExactAt(s, id) && Lockable(s.tables, id)
    ensures s.tables.jobs[id].status == Pending
  {
    CarriersBound(s.procs, id);
    assert CarryWeight(s.procs[w], id) == 1;
  }

  predicate SameJob(s: System, s': System, id: JobId) {
    && s'.now >= s.now
    && Hist(s', id) == Hist(s, id)
    && (id in s'.tables.jobs ==> id in s.tables.jobs && s'.tables.jobs[id] == s.tables.jobs[id])
  }

  lemma SameJobSteady(s: System, s': System, id: JobId)
    requires SteadyAt(s, id) && SameJob(s, s', id)
    ensures SteadyAt(s', id)
  {}

  lemma LockSteady(s: System, w: WorkerId, id: JobId)
    requires Alert(s, w) && s.procs[w].phase == Reserved(id) && GroundedAt(s, id) && ExactAt(s, id) && SteadyAt(s, id)
    ensures SteadyAt(LockStep(s, w, id), id)
  {
    if Lockable(s.tables, id) {
      LockFindsPending(s, w, id);
    }
  }

  lemma SucceedSteady(s: System, w: WorkerId, id: JobId, result: Option<string>)
    requires Alert(s, w) && InFlight(s, w, id) && OwnedAt(s, id) && SteadyAt(s, id)
    ensures SteadyAt(SucceedStep(s, w, id, result), id)
  {
    assert Owns(s, w, id);
  }

  lemma FailSteady(s: System, w: WorkerId, id: JobId, error: string, draw: real, letter: LetterId)
    requires Alert(s, w) && InFlight(s, w, id) && OwnedAt(s, id) && SteadyAt(s, id)
    ensures SteadyAt(FailStep(s, w, id, AttemptOf(s, w), error, draw, letter), id)
  {
    assert Owns(s, w, id);
  }

  lemma OutcomeSteady(cfg: Config, s: System, w: WorkerId, act: WorkerAct, id: JobId)
    requires WorkEnabled(cfg, s, w, act) && WritesRow(act)
    requires GroundedAt(s, id) && OwnedAt(s, id) && ExactAt(s, id) && SteadyAt(s, id)
    ensures SteadyAt(Work1(cfg, s, w, act), id)
  {
    if s.procs[w].phase.id != id {
      WriteKeepsOthers(cfg, s, w, act, id);
      WorkMovesOneProcess(cfg, s, w, act);
      SameJobSteady(s, Work1(cfg, s, w, act), id);
    } else if act.LockIt? {
      LockSteady(s, w, id);
    } else if act.Succeed? {
      SucceedSteady(s, w, id, act.result);
    } else {
      FailSteady(s, w, id, act.error, act.draw, act.letter);
    }
  }

  lemma WorkSteady(cfg: Config, s: System, w: WorkerId, act: WorkerAct, id: JobId)
    requires WorkEnabled(cfg, s, w, act) && Grounded(s) && OwnedAt(s, id) && ExactAt(s, id) && SteadyAt(s, id)
    ensures SteadyAt(Work1(cfg, s, w, act), id)
  {
    assert GroundedAt(s, id);
    if WritesRow(act) {
      OutcomeSteady(cfg, s, w, act, id);
    } else if act.Succession? && act.next == id {
      assert GroundedAt(s, s.procs[w].phase.id);
      ProcessIsGrounded(s, w);
    } else {
      SameJobSteady(s, Work1(cfg, s, w, act), id);
    }
  }

  lemma ReplaySteady(s: System, letter: LetterId, id: JobId)
    requires letter in s.tables.letters && GroundedAt(s, id) && SteadyAt(s, id)
    ensures SteadyAt(ReplayStep(s, letter), id)
  {
    if s.tables.letters[letter].jobId != id {
      SameJobSteady(s, ReplayStep(s, letter), id);
    }
  }

  lemma DaemonSteady(cfg: Config, s: System, act: DaemonAct, id: JobId)
    requires DaemonEnabled(s, act) && SteadyAt(s, id)
    ensures SteadyAt(Daemon1(cfg, s, act), id)
  {
    if !act.Reclaim? && !act.PromoteRetries? {
      SameJobSteady(s, Daemon1(cfg, s, act), id);
    }
  }

  lemma CancelSteady(s: System, s': System, x: JobId, id: JobId)
    requires SteadyAt(s, id) && s'.tables == CancelJob(s.tables, x) && s'.hist == s.hist && s'.now == s.now
    ensures SteadyAt(s', id)
  {}

  lemma ClientSteady(cfg: Config, s: System, act: ClientAct, id: JobId)
    requires ClientEnabled(cfg, s, act) && GroundedAt(s, id) && SteadyAt(s, id)
    ensures SteadyAt(Client1(cfg, s, act), id)
  {
    if act.Replay? {
      ReplaySteady(s, act.letter, id);
    } else if act.Cancel? || act.CancelRow? {
      CancelSteady(s, Client1(cfg, s, act), act.id, id);
    } else if act.Submit? && act.id == id {
      assert Client1(cfg, s, act).tables.jobs[id] == NewRow(act.spec, act.scheduledFor);
    } else {
      SameJobSteady(s, Client1(cfg, s, act), id);
    }
  }

  lemma StepSteady(cfg: Config, s: System, step: Step, id: JobId)
    requires Enabled(cfg, s, step) && Orderly(s) && ExactAt(s, id) && SteadyAt(s, id)
    ensures SteadyAt(Apply(cfg, s, step), id)
  {
    assert OrderlyAt(s, id) && GroundedAt(s, id);
    match step
    case Work(w, act) => WorkSteady(cfg, s, w, act, id);
    case Daemon(act) => DaemonSteady(cfg, s, act, id);
    case Client(act) => ClientSteady(cfg, s, act, id);
    case Env(act) => SameJobSteady(s, Apply(cfg, s, step), id);
  }

  lemma {:induction false} AlwaysSteady(cfg: Config, ss: seq<System>, steps: seq<Step>, n: nat, id: JobId)
    requires LoyalRun(cfg, ss, steps) && n < |ss|
    ensures SteadyAt(ss[n], id)
  {
    if n > 0 {
      AlwaysSteady(cfg, ss, steps, n - 1, id);
      AlwaysExact(cfg, ss, steps, n - 1);
      assert ExactAt(ss[n - 1], id);
      StepSteady(cfg, ss[n - 1], steps[n - 1], id);
    }
  }

  // ---- Conformance ----

  /** The transitions of the job state machine, each with the only kind of step that makes it. */
  predicate Follows(step: Step, from: Status, to: Status) {
    || from == to
    || (from == Pending && to == Running && step.Work? && step.act.LockIt?)
    || (from == Pending && to == Failed && step.Client? && (step.client.Cancel? || step.client.CancelRow?))
    || (from == Running && to == Success && step.Work? && step.act.Succeed?)
    || (from == Running && (to == Retrying || to == DeadLetter) && step.Work? && step.act.Fail?)
    || (from == Running && to == Pending && step.Daemon? && step.daemon.Reclaim?)
    || (from == Retrying && to == Pending && step.Daemon? && step.daemon.PromoteRetries?)
    || (from == DeadLetter && to == Pending && step.Client? && step.client.Replay?)
  }

  predicate Conforms(s: System, s': System, step: Step, id: JobId) {
    id in s.tables.jobs ==>
      && id in s'.tables.jobs
      && Follows(step, s.tables.jobs[id].status, s'.tables.jobs[id].status)
      && (s.tables.jobs[id].status == Success || s.tables.jobs[id].status == Failed ==>
          s'.tables.jobs[id] == s.tables.jobs[id])
  }

  // ---- The exact condition, step by step, in any run ----

  /** The status an outcome writes; the statement looks at nothing but the id. */
  function OutcomeStatus(s: System, w: WorkerId, act: WorkerAct): Status
    requires w in s.procs && s.procs[w].phase.Executing? && (act.Succeed? || act.Fail?)
  {
    if act.Succeed? then Success
    else if AttemptOf(s, w) < SpecOf(s, s.procs[w].phase.id).maxAttempts then Retrying
    else DeadLetter
  }

  /** What the update would have to check in the row it is about to change. */
  predicate Guarded(s: System, step: Step, id: JobId)
    requires id in s.tables.jobs
  {
    var row := s.tables.jobs[id];
    if step.Work? && step.act.LockIt? then
      step.w in s.procs && s.procs[step.w].phase == Reserved(id) ==> row.status != Retrying
    else if step.Work? && (step.act.Succeed? || step.act.Fail?) then
      InFlight(s, step.w, id) ==>
        || row.status == Running
        || (row.status == OutcomeStatus(s, step.w, step.act) && row.status != Success)
        || (step.act.Succeed? && row.status == Success && row.result == step.act.result && row.error == None)
    else if step.Client? && step.client.Replay? then
      LetterFor(s, step.client.letter, id) ==> row.status == DeadLetter || row.status == Pending
    else true
  }

  /** No other step writes a status that the machine does not allow. */
  lemma LockConformsExactly(cfg: Config, s: System, w: WorkerId, id: JobId)
    requires WorkEnabled(cfg, s, w, LockIt) && id in s.tables.jobs
    ensures Conforms(s, Work1(cfg, s, w, LockIt), Work(w, LockIt), id) <==> Guarded(s, Work(w, LockIt), id)
  {}

  lemma SucceedConformsExactly(cfg: Config, s: System, w: WorkerId, result: Option<string>, id: JobId)
    requires WorkEnabled(cfg, s, w, Succeed(result)) && id in s.tables.jobs && LocksMatch(s.tables.jobs[id])
    ensures var step := Work(w, Succeed(result));
            Conforms(s, Work1(cfg, s, w, Succeed(result)), step, id) <==> Guarded(s, step, id)
  {
    var s' := Work1(cfg, s, w, Succeed(result));
    if s.procs[w].phase.id != id {
      assert s'.tables.jobs[id] == s.tables.jobs[id];
    }
  }

  lemma FailConformsExactly(cfg: Config, s: System, w: WorkerId, act: WorkerAct, id: JobId)
    requires WorkEnabled(cfg, s, w, act) && act.Fail? && id in s.tables.jobs
    ensures Conforms(s, Work1(cfg, s, w, act), Work(w, act), id) <==> Guarded(s, Work(w, act), id)
  {
    var s' := Work1(cfg, s, w, act);
    if s.procs[w].phase.id != id {
      assert s'.tables.jobs[id] == s.tables.jobs[id];
    } else {
      assert s' == FailStep(s, w, id, AttemptOf(s, w), act.error, act.draw, act.letter);
    }
  }

  lemma QuietWorkConforms(cfg: Config, s: System, w: WorkerId, act: WorkerAct, id: JobId)
    requires WorkEnabled(cfg, s, w, act) && !act.LockIt? && !act.Succeed? && !act.Fail? && id in s.tables.jobs
    ensures id in Work1(cfg, s, w, act).tables.jobs && Work1(cfg, s, w, act).tables.jobs[id] == s.tables.jobs[id]
  {}

  lemma WorkConformsExactly(cfg: Config, s: System, w: WorkerId, act: WorkerAct, id: JobId)
    requires WorkEnabled(cfg, s, w, act) && id in s.tables.jobs && LocksMatch(s.tables.jobs[id])
    ensures Conforms(s, Work1(cfg, s, w, act), Work(w, act), id) <==> Guarded(s, Work(w, act), id)
  {
    if act.LockIt? {
      LockConformsExactly(cfg, s, w, id);
    } else if act.Succeed? {
      SucceedConformsExactly(cfg, s, w, act.result, id);
    } else if act.Fail? {
      FailConformsExactly(cfg, s, w, act, id);
    } else {
      QuietWorkConforms(cfg, s, w, act, id);
    }
  }

  lemma ReplayConformsExactly(s: System, letter: LetterId, id: JobId)
    requires letter in s.tables.letters && id in s.tables.jobs
    ensures var step := Client(Replay(letter));
            Conforms(s, ReplayStep(s, letter), step, id) <==> Guarded(s, step, id)
  {}

  lemma DaemonConforms(cfg: Config, s: System, act: DaemonAct, id: JobId)
    requires DaemonEnabled(s, act)
    ensures Conforms(s, Daemon1(cfg, s, act), Daemon(act), id)
  {
    if !act.Reclaim? && !act.PromoteRetries? {
      assert Daemon1(cfg, s, act).tables.jobs == s.tables.jobs;
    }
  }

  lemma RequestConforms(cfg: Config, s: System, act: ClientAct, id: JobId)
    requires ClientEnabled(cfg, s, act) && !act.Replay?
    ensures Conforms(s, Client1(cfg, s, act), Client(act), id)
  {
    if act.Submit? {
      assert id in s.tables.jobs ==> id != act.id;
    } else if act.Remove? {
      assert Client1(cfg, s, act).tables == s.tables;
    } else {
      assert Client1(cfg, s, act).tables == CancelJob(s.tables, act.id);
    }
  }

  lemma ClientConformsExactly(cfg: Config, s: System, act: ClientAct, id: JobId)
    requires ClientEnabled(cfg, s, act) && id in s.tables.jobs
    ensures Conforms(s, Client1(cfg, s, act), Client(act), id) <==> Guarded(s, Client(act), id)
  {
    if act.Replay? {
      ReplayConformsExactly(s, act.letter, id);
    } else {
      RequestConforms(cfg, s, act, id);
    }
  }

  /**
   In any run, zombies, resync and losses included, a step follows the state machine and leaves SUCCESS and
   FAILED rows as they are exactly when the guard holds that its update does not have.
   */
  lemma StepConformsExactly(cfg: Config, ss: seq<System>, steps: seq<Step>, n: nat, id: JobId)
    requires Run(cfg, ss, steps) && Initial(ss[0]) && n < |steps| && id in ss[n].tables.jobs
    ensures Conforms(ss[n], ss[n + 1], steps[n], id) <==> Guarded(ss[n], steps[n], id)
  {
    LocksAlwaysMatch(cfg, ss, steps, n, id);
    match steps[n]
    case Work(w, act) => WorkConformsExactly(cfg, ss[n], w, act, id);
    case Daemon(act) => DaemonConforms(cfg, ss[n], act, id);
    case Client(act) => ClientConformsExactly(cfg, ss[n], act, id);
    case Env(act) =>
  }

  // ---- Timely, loyal runs keep every guard ----

  lemma StepIsGuarded(cfg: Config, s: System, step: Step, id: JobId)
    requires Enabled(cfg, s, step) && OrderlyAt(s, id) && ExactAt(s, id) && id in s.tables.jobs
    ensures Guarded(s, step, id)
  {
    if step.Work? && step.act.LockIt? {
      if s.procs[step.w].phase == Reserved(id) && Lockable(s.tables, id) {
        LockFindsPending(s, step.w, id);
      }
    } else if step.Work? && (step.act.Succeed? || step.act.Fail?) {
      assert InFlight(s, step.w, id) ==> Owns(s, step.w, id);
    }
  }

  lemma StepConforms(cfg: Config, ss: seq<System>, steps: seq<Step>, n: nat, id: JobId)
    requires LoyalRun(cfg, ss, steps) && n < |steps|
    ensures Conforms(ss[n], ss[n + 1], steps[n], id)
  {
    if id in ss[n].tables.jobs {
      AlwaysExact(cfg, ss, steps, n);
      assert OrderlyAt(ss[n], id) && ExactAt(ss[n], id);
      StepIsGuarded(cfg, ss[n], steps[n], id);
      StepConformsExactly(cfg, ss, steps, n, id);
    }
  }

  /** A SUCCESS or FAILED row, its result and its error are never written again. */
  lemma {:induction false} FinalRowsNeverChange(cfg: Config, ss: seq<System>, steps: seq<Step>, i: nat, j: nat,
                                                id: JobId)
    requires LoyalRun(cfg, ss, steps) && i <= j < |ss| && id in ss[i].tables.jobs
    requires ss[i].tables.jobs[id].status == Success || ss[i].tables.jobs[id].status == Failed
    ensures id in ss[j].tables.jobs && ss[j].tables.jobs[id] == ss[i].tables.jobs[id]
    decreases j
  {
    if i < j {
      FinalRowsNeverChange(cfg, ss, steps, i, j - 1, id);
      StepConforms(cfg, ss, steps, j - 1, id);
    }
  }

  /** No lock precedes the retry time that the last failed attempt set. */
  lemma NoEarlyRetry(cfg: Config, ss: seq<System>, steps: seq<Step>, n: nat, w: WorkerId)
    requires LoyalRun(cfg, ss, steps) && n < |steps| && steps[n] == Work(w, LockIt)
    requires var id := ss[n].procs[w].phase.id; Lockable(ss[n].tables, id)
    ensures var row := ss[n].tables.jobs[ss[n].procs[w].phase.id];
            row.status == Pending && PastRetry(row, ss[n].now)
  {
    var s := ss[n];
    var id := s.procs[w].phase.id;
    AlwaysExact(cfg, ss, steps, n);
    AlwaysSteady(cfg, ss, steps, n, id);
    assert ExactAt(s, id);
    LockFindsPending(s, w, id);
  }

  // ---- Dead letters in timely runs ----

  predicate CrashFree(steps: seq<Step>) {
    forall i :: 0 <= i < |steps| ==> !(steps[i].Work? && steps[i].act.Crash?)
  }

  ghost predicate NoneStranded(s: System) {
    forall w :: w in s.procs && !s.procs[w].live ==> s.procs[w].phase.Idle?
  }

  lemma NothingIsStale(cfg: Config, s: System, id: JobId)
    requires Sane(cfg) && Timely(cfg, s) && Orderly(s) && NoneStranded(s)
    ensures !Stale(s.tables, id, cfg.visibilityTimeout, s.now)
  {
    assert OrderlyAt(s, id);
    if Stale(s.tables, id, cfg.visibilityTimeout, s.now) {
      var v := s.tables.jobs[id].lockedBy.value;
      assert Alert(s, v) && InFlight(s, v, id);
      LiveExecutionIsNotStale(cfg, s, v, id);
    }
  }

  lemma {:induction false} NoCrashNoReclaim(cfg: Config, ss: seq<System>, steps: seq<Step>, n: nat, id: JobId)
    requires TimelyRun(cfg, ss, steps) && CrashFree(steps) && n < |ss|
    ensures NoneStranded(ss[n]) && Hist(ss[n], id).reclaims == 0
  {
    if n > 0 {
      NoCrashNoReclaim(cfg, ss, steps, n - 1, id);
      AlwaysOrderly(cfg, ss, steps, n - 1);
      NothingIsStale(cfg, ss[n - 1], id);
      QuietStep(cfg, ss[n - 1], steps[n - 1], id);
    }
  }

  lemma QuietWork(cfg: Config, s: System, w: WorkerId, act: WorkerAct, id: JobId)
    requires WorkEnabled(cfg, s, w, act) && NoneStranded(s) && !act.Crash?
    ensures NoneStranded(Work1(cfg, s, w, act)) && Hist(Work1(cfg, s, w, act), id).reclaims <= Hist(s, id).reclaims
  {
    var s' := Work1(cfg, s, w, act);
    assert forall v :: v != w && v in s'.procs ==> v in s.procs && s'.procs[v] == s.procs[v];
    assert s'.procs[w].live || act.Quit?;
  }

  lemma QuietDaemon(cfg: Config, s: System, act: DaemonAct, id: JobId)
    requires DaemonEnabled(s, act) && !Stale(s.tables, id, cfg.visibilityTimeout, s.now)
    ensures Daemon1(cfg, s, act).procs == s.procs
    ensures Hist(Daemon1(cfg, s, act), id).reclaims <= Hist(s, id).reclaims
  {}

  lemma QuietClient(cfg: Config, s: System, act: ClientAct, id: JobId)
    requires ClientEnabled(cfg, s, act)
    ensures Client1(cfg, s, act).procs == s.procs
    ensures Hist(Client1(cfg, s, act), id).reclaims <= Hist(s, id).reclaims
  {
    if act.Submit? {
      assert Client1(cfg, s, act).hist == s.hist[act.id := NewHistory(act.id)];
    } else if act.Replay? {
      assert Client1(cfg, s, act) == ReplayStep(s, act.letter);
    } else {
      assert Client1(cfg, s, act).hist == s.hist;
    }
  }

  lemma QuietStep(cfg: Config, s: System, step: Step, id: JobId)
    requires Enabled(cfg, s, step) && NoneStranded(s) && !(step.Work? && step.act.Crash?)
    requires !Stale(s.tables, id, cfg.visibilityTimeout, s.now)
    ensures NoneStranded(Apply(cfg, s, step)) && Hist(Apply(cfg, s, step), id).reclaims <= Hist(s, id).reclaims
  {
    match step
    case Work(w, act) => QuietWork(cfg, s, w, act, id);
    case Daemon(act) => QuietDaemon(cfg, s, act, id);
    case Client(act) => QuietClient(cfg, s, act, id);
    case Env(act) => assert Apply(cfg, s, step).procs == s.procs;
  }

  /** A job has a dead letter exactly when its status says so; there is one, and it tells how often the job ran. */
  lemma DeadLetterIntegrity(cfg: Config, ss: seq<System>, steps: seq<Step>, n: nat, id: JobId)
    requires LoyalRun(cfg, ss, steps) && n < |ss| && id in ss[n].tables.jobs
    ensures var s := ss[n];
            var row := s.tables.jobs[id];
            && (row.status == DeadLetter <==> exists l :: LetterFor(s, l, id))
            && (forall l :: LetterFor(s, l, id) ==>
                  && s.tables.letters[l].attemptsMade == row.attempts
                  && row.spec.maxAttempts <= row.attempts <= row.spec.maxAttempts + Hist(s, id).reclaims
                  && (CrashFree(steps) ==> row.attempts == row.spec.maxAttempts))
            && (forall l, m :: LetterFor(s, l, id) && LetterFor(s, m, id) ==> l == m)
  {
    AlwaysOrderly(cfg, ss, steps, n);
    AlwaysSteady(cfg, ss, steps, n, id);
    assert OrderlyAt(ss[n], id);
    if CrashFree(steps) {
      NoCrashNoReclaim(cfg, ss, steps, n, id);
    }
  }

  /** Dead-lettered again without crashes, a replayed job has been executed max_attempts times since the replay. */
  lemma ReplayedJobRunsItsAttempts(cfg: Config, ss: seq<System>, steps: seq<Step>, k: nat, n: nat, id: JobId)
    requires LoyalRun(cfg, ss, steps) && CrashFree(steps) && k < n < |ss| && Replays(ss[k], steps[k], id)
    requires forall i {:trigger steps[i]} :: k < i < n ==> !Replays(ss[i], steps[i], id)
    requires id in ss[n].tables.jobs && ss[n].tables.jobs[id].status == DeadLetter
    ensures Hist(ss[n], id).locks == Hist(ss[k], id).locks + ss[n].tables.jobs[id].spec.maxAttempts
  {
    AttemptsSinceReplay(cfg, ss, steps, k, n, id);
    DeadLetterIntegrity(cfg, ss, steps, n, id);
  }

  // ---- Who may still hold a job that is replayed ----

  predicate Concluding(s: System, w: WorkerId, id: JobId) {
    w in s.procs && (s.procs[w].phase.Finishing? || s.procs[w].phase.Announcing?) && s.procs[w].phase.id == id
  }

  lemma WorkConcludes(cfg: Config, s: System, v: WorkerId, act: WorkerAct, w: WorkerId, id: JobId)
    requires WorkEnabled(cfg, s, v, act) && Concluding(Work1(cfg, s, v, act), w, id)
    ensures Concluding(s, w, id) || (v == w && act.Succeed? && InFlight(s, w, id))
  {
    var s' := Work1(cfg, s, v, act);
    if v != w {
      assert s'.procs[w] == s.procs[w];
    } else if act.Succeed? {
      assert s' == SucceedStep(s, w, s.procs[w].phase.id, act.result);
    } else if !act.Succession? {
      assert s'.procs[w].phase == s.procs[w].phase;
    }
  }

  /** Between committing SUCCESS and scheduling the successor the row says SUCCESS. */
  lemma {:induction false} ConcludedIsSuccess(cfg: Config, ss: seq<System>, steps: seq<Step>, n: nat, w: WorkerId,
                                              id: JobId)
    requires LoyalRun(cfg, ss, steps) && n < |ss| && Concluding(ss[n], w, id)
    ensures id in ss[n].tables.jobs && ss[n].tables.jobs[id].status == Success
  {
    if n > 0 {
      var s, step := ss[n - 1], steps[n - 1];
      if Concluding(s, w, id) {
        ConcludedIsSuccess(cfg, ss, steps, n - 1, w, id);
        StepConforms(cfg, ss, steps, n - 1, id);
      } else {
        SuccessJustRecorded(cfg, ss, steps, n, w, id);
      }
    }
  }

  lemma SuccessJustRecorded(cfg: Config, ss: seq<System>, steps: seq<Step>, n: nat, w: WorkerId, id: JobId)
    requires LoyalRun(cfg, ss, steps) && 0 < n < |ss| && Concluding(ss[n], w, id) && !Concluding(ss[n - 1], w, id)
    ensures id in ss[n].tables.jobs && ss[n].tables.jobs[id].status == Success
  {
    var s, step := ss[n - 1], steps[n - 1];
    if step.Work? {
      WorkConcludes(cfg, s, step.w, step.act, w, id);
      AlwaysGrounded(cfg, ss, steps, n - 1);
      assert GroundedAt(s, id);
    }
  }

  lemma DeadLetterIsSettled(cfg: Config, ss: seq<System>, steps: seq<Step>, n: nat, id: JobId, w: WorkerId)
    requires LoyalRun(cfg, ss, steps) && n < |ss|
    requires id in ss[n].tables.jobs && ss[n].tables.jobs[id].status == DeadLetter
    requires Alert(ss[n], w) && Concerns(ss[n].procs[w].phase, id)
    ensures ss[n].procs[w].phase == Settled(id)
  {
    var s := ss[n];
    AlwaysExact(cfg, ss, steps, n);
    assert ExactAt(s, id) && OrderlyAt(s, id);
    CarriersBound(s.procs, id);
    assert CarryWeight(s.procs[w], id) == 0;
    if Concluding(s, w, id) {
      ConcludedIsSuccess(cfg, ss, steps, n, w, id);
    }
  }

  /**
   So a replay only ever resets a job that no waiting list, no pending push and no live worker can still start
   or change: a live worker that has anything to do with it has only the acknowledgement left, and an entry in
   the processing list is held by such a worker or by a crashed one.
   */
  lemma ReplayFindsUnheldJob(cfg: Config, ss: seq<System>, steps: seq<Step>, n: nat, letter: LetterId)
    requires LoyalRun(cfg, ss, steps) && n < |ss| && letter in ss[n].tables.letters
    ensures var s, id := ss[n], ss[n].tables.letters[letter].jobId;
            && id in s.tables.jobs && s.tables.jobs[id].status == DeadLetter && RefCount(s, id) == 0
            && (forall w :: Alert(s, w) && Concerns(s.procs[w].phase, id) ==> s.procs[w].phase == Settled(id))
            && (id in s.queues.processing ==>
                  exists w :: w in s.procs && Holds(s.procs[w].phase, id) && (s.procs[w].live ==>
                      s.procs[w].phase == Settled(id)))
            && (forall l :: LetterFor(s, l, id) ==> l == letter)
  {
    var s, id := ss[n], ss[n].tables.letters[letter].jobId;
    AlwaysExact(cfg, ss, steps, n);
    assert ExactAt(s, id) && OrderlyAt(s, id) && LetterFor(s, letter, id);
    forall w | Alert(s, w) && Concerns(s.procs[w].phase, id) ensures s.procs[w].phase == Settled(id) {
      DeadLetterIsSettled(cfg, ss, steps, n, id, w);
    }
    if id in s.queues.processing {
      var w := EntryHasHolder(cfg, ss, steps, n, id);
      assert Concerns(s.procs[w].phase, id);
    }
  }
}
