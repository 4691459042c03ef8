/**
 An accurate failure detector, derived from timing: while live workers refresh their row often enough and
 finish within the visibility timeout, the row of a job being executed belongs to its executor.
 */
module Ownership {
  import opened Domain
  import opened Tables
  import opened Protocol
  import opened Frames
  import opened Grounding
  import opened Attempts

  // ---- Timing ----

  predicate Sane(cfg: Config) {
    0.0 <= cfg.beat <= cfg.heartbeatTimeout && cfg.beat <= cfg.visibilityTimeout
  }

  /** What heartbeats and job durations promise in every state of a timely run. */
  ghost predicate Timely(cfg: Config, s: System) {
    forall w :: Alert(s, w) ==>
      && w in s.tables.workers && s.now - s.tables.workers[w].lastHeartbeat <= cfg.beat
      && (s.procs[w].phase.Executing? ==> s.now - s.procs[w].phase.since <= cfg.visibilityTimeout)
  }

  /** The half of it that the failure detector listens to. */
  ghost predicate Beating(cfg: Config, s: System) {
    forall w :: Alert(s, w) && w in s.tables.workers ==> s.now - s.tables.workers[w].lastHeartbeat <= cfg.beat
  }

  predicate RegisteredAt(s: System, w: WorkerId) {
    Alert(s, w) ==> w in s.tables.workers && s.tables.workers[w].status == Alive
  }

  ghost predicate Registered(s: System) {
    forall w :: RegisteredAt(s, w)
  }

  // ---- Ownership of one row ----

  /** The row shows exactly the lock this worker took. */
  predicate Owns(s: System, w: WorkerId, id: JobId) {
    && InFlight(s, w, id)
    && id in s.tables.jobs
    && var row := s.tables.jobs[id];
       row.lockedBy == Some(w) && row.lockedAt == Some(s.procs[w].phase.since) && row.attempts == AttemptOf(s, w)
  }

  ghost predicate OwnedAt(s: System, id: JobId) {
    && (forall w :: Alert(s, w) && InFlight(s, w, id) ==> Owns(s, w, id) && s.tables.jobs[id].status == Running)
    && (id in s.tables.jobs && s.tables.jobs[id].status == Running ==>
          s.tables.jobs[id].lockedBy.Some? && Owns(s, s.tables.jobs[id].lockedBy.value, id))
  }

  // ---- Dead letters of one job ----

  predicate LetterFor(s: System, l: LetterId, id: JobId) {
    l in s.tables.letters && s.tables.letters[l].jobId == id
  }

  ghost predicate LettersAt(s: System, id: JobId) {
    && (forall l :: LetterFor(s, l, id) ==>
          && id in s.tables.jobs && s.tables.jobs[id].status == DeadLetter
          && s.tables.letters[l].attemptsMade == s.tables.jobs[id].attempts)
    && (forall l, m :: LetterFor(s, l, id) && LetterFor(s, m, id) ==> l == m)
    && (id in s.tables.jobs && s.tables.jobs[id].status == DeadLetter ==> exists l :: LetterFor(s, l, id))
  }

  ghost predicate OrderlyAt(s: System, id: JobId) {
    OwnedAt(s, id) && LettersAt(s, id)
  }

  ghost predicate Orderly(s: System) {
    Grounded(s) && Registered(s) && forall id :: OrderlyAt(s, id)
  }

  // ---- The detector is accurate ----

  lemma OwnWorkRegisters(cfg: Config, s: System, w: WorkerId, act: WorkerAct)
    requires WorkEnabled(cfg, s, w, act) && RegisteredAt(s, w)
    ensures RegisteredAt(Work1(cfg, s, w, act), w)
  {
    if !act.Register? && !act.Beat? && !act.Quit? {
      WorkKeepsWorkers(cfg, s, w, act);
    }
  }

  lemma DaemonKeepsRegistered(cfg: Config, s: System, act: DaemonAct, w: WorkerId)
    requires DaemonEnabled(s, act) && Sane(cfg) && Beating(cfg, s) && RegisteredAt(s, w)
    ensures RegisteredAt(Daemon1(cfg, s, act), w)
  {
    DaemonKeepsProcs(cfg, s, act);
    if !act.Expire? {
      assert Daemon1(cfg, s, act).tables.workers == s.tables.workers;
    }
  }

  lemma LiveWorkersStayRegistered(cfg: Config, s: System, step: Step)
    requires Enabled(cfg, s, step) && Sane(cfg) && Beating(cfg, s) && Registered(s)
    ensures Registered(Apply(cfg, s, step))
  {
    forall w ensures RegisteredAt(Apply(cfg, s, step), w) {
      assert RegisteredAt(s, w);
      match step
      case Work(v, act) =>
        if v == w {
          OwnWorkRegisters(cfg, s, w, act);
        } else {
          WorkKeepsOtherWorkers(cfg, s, v, act, w);
        }
      case Daemon(act) => DaemonKeepsRegistered(cfg, s, act, w);
      case Client(act) => ClientKeepsClocks(cfg, s, act);
      case Env(act) =>
    }
  }

  /** A job that a live worker is executing is never stale. */
  lemma LiveExecutionIsNotStale(cfg: Config, s: System, w: WorkerId, id: JobId)
    requires Sane(cfg) && Timely(cfg, s) && Registered(s) && OwnedAt(s, id)
    requires Alert(s, w) && InFlight(s, w, id)
    ensures !Stale(s.tables, id, cfg.visibilityTimeout, s.now)
  {
    assert RegisteredAt(s, w) && Owns(s, w, id);
  }

  // ---- Steps that do not concern this job ----

  predicate Watched(status: Status) {
    status == Running || status == DeadLetter
  }

  predicate SameRow(s: System, s': System, id: JobId) {
    && (id in s.tables.jobs <==> id in s'.tables.jobs)
    && (id in s.tables.jobs ==>
          s'.tables.jobs[id] == s.tables.jobs[id]
          || (!Watched(s.tables.jobs[id].status) && !Watched(s'.tables.jobs[id].status)))
  }

  ghost predicate SameExecutors(s: System, s': System, id: JobId) {
    forall w :: (InFlight(s', w, id) <==> InFlight(s, w, id))
             && (InFlight(s, w, id) ==> s'.procs[w].phase == s.procs[w].phase && (Alert(s', w) ==> Alert(s, w)))
  }

  ghost predicate SameLetters(s: System, s': System, id: JobId) {
    forall l :: (LetterFor(s', l, id) <==> LetterFor(s, l, id))
             && (LetterFor(s, l, id) ==> s'.tables.letters[l] == s.tables.letters[l])
  }

  lemma LettersUnaffected(s: System, s': System, id: JobId)
    requires LettersAt(s, id) && SameRow(s, s', id) && SameLetters(s, s', id)
    ensures LettersAt(s', id)
  {
    if id in s.tables.jobs && s.tables.jobs[id].status == DeadLetter {
      var l :| LetterFor(s, l, id);
      assert LetterFor(s', l, id);
    }
  }

  lemma OwnershipUnaffected(s: System, s': System, id: JobId)
    requires OrderlyAt(s, id) && SameRow(s, s', id) && SameExecutors(s, s', id) && SameLetters(s, s', id)
    ensures OrderlyAt(s', id)
  {
    LettersUnaffected(s, s', id);
  }

  lemma FreshRowIsOrderly(s: System, s': System, id: JobId)
    requires GroundedAt(s, id) && id !in s.tables.jobs
    requires id in s'.tables.jobs && s'.tables.jobs[id].status == Pending
    requires SameExecutors(s, s', id) && SameLetters(s, s', id)
    ensures OrderlyAt(s', id)
  {
    assert forall w :: InFlight(s', w, id) ==> InFlight(s, w, id) && Concerns(s.procs[w].phase, id);
  }

  // ---- Worker steps ----

  lemma LockOrderly(s: System, w: WorkerId, id: JobId)
    requires Alert(s, w) && s.procs[w].phase == Reserved(id) && OrderlyAt(s, id)
    ensures OrderlyAt(LockStep(s, w, id), id)
  {
    var s' := LockStep(s, w, id);
    if Lockable(s.tables, id) {
      assert forall v :: Alert(s', v) && InFlight(s', v, id) ==> v == w || (Alert(s, v) && InFlight(s, v, id));
      assert Owns(s', w, id);
      assert SameLetters(s, s', id);
    } else {
      OwnershipUnaffected(s, s', id);
    }
  }

  /** Once the executor gives the row up, nobody live is left executing it. */
  lemma OutcomeLeavesNoOwner(s: System, s': System, w: WorkerId, id: JobId)
    requires OwnedAt(s, id) && Alert(s, w) && InFlight(s, w, id)
    requires w in s'.procs && !InFlight(s', w, id) && s'.procs == s.procs[w := s'.procs[w]]
    requires id in s'.tables.jobs && s'.tables.jobs[id].status != Running
    ensures OwnedAt(s', id)
  {
    assert Owns(s, w, id);
    forall v ensures !(Alert(s', v) && InFlight(s', v, id)) {
      assert Alert(s, v) && InFlight(s, v, id) ==> Owns(s, v, id);
    }
  }

  lemma SucceedOrderly(s: System, w: WorkerId, id: JobId, result: Option<string>)
    requires Alert(s, w) && InFlight(s, w, id) && OrderlyAt(s, id)
    ensures OrderlyAt(SucceedStep(s, w, id, result), id)
  {
    var s' := SucceedStep(s, w, id, result);
    assert Owns(s, w, id) && s.tables.jobs[id].status == Running;
    OutcomeLeavesNoOwner(s, s', w, id);
    assert forall l :: LetterFor(s', l, id) <==> LetterFor(s, l, id);
  }

  lemma FailOrderly(s: System, w: WorkerId, id: JobId, error: string, draw: real, letter: LetterId)
    requires Alert(s, w) && InFlight(s, w, id) && OrderlyAt(s, id) && letter !in s.tables.letters
    ensures OrderlyAt(FailStep(s, w, id, AttemptOf(s, w), error, draw, letter), id)
  {
    var s' := FailStep(s, w, id, AttemptOf(s, w), error, draw, letter);
    assert Owns(s, w, id) && s.tables.jobs[id].status == Running;
    OutcomeLeavesNoOwner(s, s', w, id);
    assert forall l :: LetterFor(s', l, id) ==> l == letter || LetterFor(s, l, id);
    if s'.tables.jobs[id].status == DeadLetter {
      assert LetterFor(s', letter, id);
    }
  }

  lemma OutcomeOrderly(cfg: Config, s: System, w: WorkerId, act: WorkerAct, id: JobId)
    requires WorkEnabled(cfg, s, w, act) && (act.LockIt? || act.Succeed? || act.Fail?)
    requires OrderlyAt(s, id)
    ensures OrderlyAt(Work1(cfg, s, w, act), id)
  {
    var s' := Work1(cfg, s, w, act);
    var job := s.procs[w].phase.id;
    if job != id {
      OwnershipUnaffected(s, s', id);
    } else if act.LockIt? {
      LockOrderly(s, w, id);
    } else if act.Succeed? {
      SucceedOrderly(s, w, id, act.result);
    } else {
      FailOrderly(s, w, id, act.error, act.draw, act.letter);
    }
  }

  lemma SuccessionOrderly(cfg: Config, s: System, w: WorkerId, act: WorkerAct, id: JobId)
    requires WorkEnabled(cfg, s, w, act) && act.Succession? && GroundedAt(s, id) && OrderlyAt(s, id)
    ensures OrderlyAt(Work1(cfg, s, w, act), id)
  {
    if act.next == id {
      FreshRowIsOrderly(s, Work1(cfg, s, w, act), id);
    } else {
      OwnershipUnaffected(s, Work1(cfg, s, w, act), id);
    }
  }

  lemma WorkOrderly(cfg: Config, s: System, w: WorkerId, act: WorkerAct, id: JobId)
    requires WorkEnabled(cfg, s, w, act) && GroundedAt(s, id) && OrderlyAt(s, id)
    ensures OrderlyAt(Work1(cfg, s, w, act), id)
  {
    if act.LockIt? || act.Succeed? || act.Fail? {
      OutcomeOrderly(cfg, s, w, act, id);
    } else if act.Succession? {
      SuccessionOrderly(cfg, s, w, act, id);
    } else {
      OwnershipUnaffected(s, Work1(cfg, s, w, act), id);
    }
  }

  // ---- Reaper, scheduler, clients ----

  lemma ReclaimOrderly(cfg: Config, s: System, via: Reclaimer, id: JobId)
    requires Sane(cfg) && Timely(cfg, s) && Registered(s) && OrderlyAt(s, id)
    ensures OrderlyAt(ReclaimStep(cfg, s, via), id)
  {
    var s' := ReclaimStep(cfg, s, via);
    if Stale(s.tables, id, cfg.visibilityTimeout, s.now) {
      forall w | Alert(s', w) && InFlight(s', w, id) ensures false {
        assert Alert(s, w) && InFlight(s, w, id);
        LiveExecutionIsNotStale(cfg, s, w, id);
      }
      assert forall l :: LetterFor(s', l, id) <==> LetterFor(s, l, id);
    } else {
      OwnershipUnaffected(s, s', id);
    }
  }

  lemma ReplayOrderly(s: System, letter: LetterId, id: JobId)
    requires letter in s.tables.letters && OrderlyAt(s, id)
    ensures OrderlyAt(ReplayStep(s, letter), id)
  {
    var s' := ReplayStep(s, letter);
    if s.tables.letters[letter].jobId == id {
      assert LetterFor(s, letter, id);
      assert forall l :: LetterFor(s', l, id) ==> LetterFor(s, l, id) && l != letter;
      assert forall w :: Alert(s', w) && InFlight(s', w, id) ==> Alert(s, w) && InFlight(s, w, id);
    } else {
      OwnershipUnaffected(s, s', id);
    }
  }

  lemma SameStateOrderly(s: System, s': System, id: JobId)
    requires OrderlyAt(s, id) && s'.procs == s.procs
    requires s'.tables.jobs == s.tables.jobs && s'.tables.letters == s.tables.letters
    ensures OrderlyAt(s', id)
  {
    OwnershipUnaffected(s, s', id);
  }

  lemma PromoteRetriesOrderly(cfg: Config, s: System, via: Reclaimer, id: JobId)
    requires OrderlyAt(s, id)
    ensures OrderlyAt(Daemon1(cfg, s, PromoteRetries(via)), id)
  {
    OwnershipUnaffected(s, Daemon1(cfg, s, PromoteRetries(via)), id);
  }

  lemma DaemonOrderly(cfg: Config, s: System, act: DaemonAct, id: JobId)
    requires DaemonEnabled(s, act) && Sane(cfg) && Timely(cfg, s) && Registered(s) && OrderlyAt(s, id)
    ensures OrderlyAt(Daemon1(cfg, s, act), id)
  {
    if act.Reclaim? {
      ReclaimOrderly(cfg, s, act.via, id);
    } else if act.PromoteRetries? {
      PromoteRetriesOrderly(cfg, s, act.via, id);
    } else {
      DaemonKeepsRows(cfg, s, act);
      DaemonKeepsProcs(cfg, s, act);
      SameStateOrderly(s, Daemon1(cfg, s, act), id);
    }
  }

  lemma SubmitOrderly(cfg: Config, s: System, act: ClientAct, id: JobId)
    requires ClientEnabled(cfg, s, act) && act.Submit? && GroundedAt(s, id) && OrderlyAt(s, id)
    ensures OrderlyAt(Client1(cfg, s, act), id)
  {
    if act.id == id {
      FreshRowIsOrderly(s, Client1(cfg, s, act), id);
    } else {
      OwnershipUnaffected(s, Client1(cfg, s, act), id);
    }
  }

  lemma CancelOrderly(s: System, s': System, x: JobId, id: JobId)
    requires OrderlyAt(s, id) && s'.procs == s.procs && (s'.tables == s.tables || s'.tables == CancelJob(s.tables, x))
    ensures OrderlyAt(s', id)
  {
    OwnershipUnaffected(s, s', id);
  }

  lemma ClientOrderly(cfg: Config, s: System, act: ClientAct, id: JobId)
    requires ClientEnabled(cfg, s, act) && GroundedAt(s, id) && OrderlyAt(s, id)
    ensures OrderlyAt(Client1(cfg, s, act), id)
  {
    if act.Replay? {
      ReplayOrderly(s, act.letter, id);
    } else if act.Submit? {
      SubmitOrderly(cfg, s, act, id);
    } else {
      CancelOrderly(s, Client1(cfg, s, act), act.id, id);
    }
  }

  lemma StepOrderly(cfg: Config, s: System, step: Step)
    requires Enabled(cfg, s, step) && Sane(cfg) && Timely(cfg, s) && Orderly(s)
    ensures Orderly(Apply(cfg, s, step))
  {
    StepGrounds(cfg, s, step);
    LiveWorkersStayRegistered(cfg, s, step);
    forall id ensures OrderlyAt(Apply(cfg, s, step), id) {
      assert OrderlyAt(s, id) && GroundedAt(s, id);
      match step
      case Work(w, act) => WorkOrderly(cfg, s, w, act, id);
      case Daemon(act) => DaemonOrderly(cfg, s, act, id);
      case Client(act) => ClientOrderly(cfg, s, act, id);
      case Env(act) => OwnershipUnaffected(s, Apply(cfg, s, step), id);
    }
  }

  // ---- Whole runs ----

  ghost predicate TimelyRun(cfg: Config, ss: seq<System>, steps: seq<Step>) {
    && Sane(cfg) && Run(cfg, ss, steps) && Initial(ss[0])
    && forall i :: 0 <= i < |ss| ==> Timely(cfg, ss[i])
  }

  lemma {:induction false} AlwaysOrderly(cfg: Config, ss: seq<System>, steps: seq<Step>, n: nat)
    requires TimelyRun(cfg, ss, steps) && n < |ss|
    ensures Orderly(ss[n])
  {
    if n > 0 {
      AlwaysOrderly(cfg, ss, steps, n - 1);
      StepOrderly(cfg, ss[n - 1], steps[n - 1]);
    }
  }

  /** A live executor always finds its row RUNNING, locked by itself, at its own attempt; so it is the only one. */
  lemma MutualExclusion(cfg: Config, ss: seq<System>, steps: seq<Step>, n: nat, id: JobId)
    requires TimelyRun(cfg, ss, steps) && n < |ss|
    ensures forall w :: Alert(ss[n], w) && InFlight(ss[n], w, id) ==>
      Owns(ss[n], w, id) && ss[n].tables.jobs[id].status == Running
      && !Stale(ss[n].tables, id, cfg.visibilityTimeout, ss[n].now)
    ensures forall w, v :: Alert(ss[n], w) && Alert(ss[n], v) && InFlight(ss[n], w, id) && InFlight(ss[n], v, id) ==>
              w == v
  {
    var s := ss[n];
    AlwaysOrderly(cfg, ss, steps, n);
    assert OrderlyAt(s, id);
    forall w | Alert(s, w) && InFlight(s, w, id)
      ensures Owns(s, w, id) && s.tables.jobs[id].status == Running
              && !Stale(s.tables, id, cfg.visibilityTimeout, s.now)
    {
      LiveExecutionIsNotStale(cfg, s, w, id);
    }
  }
}
