/** From every state of a timely run with a live worker, the system can bring every job to a final status. */
module Progress {
  import opened Domain
  import opened Queues
  import opened Protocol
  import opened Frames
  import opened Custody
  import opened Grounding
  import opened Ownership
  import opened References
  import opened Lifecycle
  import opened Termination

  // ---- Handlers ----

  datatype Verdict = Returns(result: Option<string>) | Raises(error: string, draw: real)

  /** What the handler does, and the jitter drawn if it fails, may depend on everything. */
  type Handlers = (System, WorkerId) -> Verdict

  ghost predicate FairDraws(h: Handlers) {
    forall s, w :: h(s, w).Raises? ==> 0.0 <= h(s, w).draw <= 1.0
  }

  /** The outcome that the step records is the handler's. */
  predicate Obeys(h: Handlers, s: System, step: Step) {
    && (step.Work? && step.act.Succeed? ==> h(s, step.w) == Returns(step.act.result))
    && (step.Work? && step.act.Fail? ==> h(s, step.w) == Raises(step.act.error, step.act.draw))
  }

  // ---- Continuations of a run ----

  ghost predicate Takes(cfg: Config, h: Handlers, s: System, step: Step) {
    && Enabled(cfg, s, step) && Loyal(s, step) && Internal(step) && !IsCrash(step) && Obeys(h, s, step)
    && Timely(cfg, Apply(cfg, s, step))
  }

  ghost predicate Leads(cfg: Config, h: Handlers, s: System, steps: seq<Step>, t: System)
    decreases |steps|
  {
    if steps == [] then t == s
    else Takes(cfg, h, s, steps[0]) && Leads(cfg, h, Apply(cfg, s, steps[0]), steps[1..], t)
  }

  lemma {:induction false} LeadsThrough(cfg: Config, h: Handlers, s: System, front: seq<Step>, t: System,
                                        back: seq<Step>, u: System)
    requires Leads(cfg, h, s, front, t) && Leads(cfg, h, t, back, u)
    ensures Leads(cfg, h, s, front + back, u)
    decreases |front|
  {
    if front == [] {
      assert front + back == back;
    } else {
      assert (front + back)[1..] == front[1..] + back;
      LeadsThrough(cfg, h, Apply(cfg, s, front[0]), front[1..], t, back, u);
    }
  }

  lemma LeadsOnce(cfg: Config, h: Handlers, s: System, step: Step)
    requires Takes(cfg, h, s, step)
    ensures Leads(cfg, h, s, [step], Apply(cfg, s, step))
  {
    assert [step][1..] == [];
  }

  lemma StepSettles(cfg: Config, h: Handlers, s: System, step: Step)
    requires Sane(cfg) && Timely(cfg, s) && Settling(s) && Takes(cfg, h, s, step)
    ensures Settling(Apply(cfg, s, step))
  {
    StepOrderly(cfg, s, step);
    StepExact(cfg, s, step);
    forall id | id in s.tables.jobs ensures !Drops(s, step, id) {
      SurvivableDropsNothing(cfg, s, step, id);
    }
    LostExactlyWhenDropped(cfg, s, step);
    forall id ensures SteadyAt(Apply(cfg, s, step), id) {
      assert ExactAt(s, id) && SteadyAt(s, id);
      StepSteady(cfg, s, step, id);
    }
  }

  lemma {:induction false} LeadsSettles(cfg: Config, h: Handlers, s: System, steps: seq<Step>, t: System)
    requires Sane(cfg) && Timely(cfg, s) && Settling(s) && Leads(cfg, h, s, steps, t)
    ensures Timely(cfg, t) && Settling(t) && TotalPotential(t) <= TotalPotential(s) && Budget(t) <= Budget(s)
    decreases |steps|
  {
    if steps != [] {
      StepSettles(cfg, h, s, steps[0]);
      TotalPays(cfg, s, steps[0]);
      LeadsSettles(cfg, h, Apply(cfg, s, steps[0]), steps[1..], t);
    }
  }

  // ---- Waiting: the clock moves and workers beat, nothing else ----

  predicate IsWait(step: Step) {
    (step.Env? && step.env.Tick?) || (step.Work? && step.act.Beat?)
  }

  predicate Patient(steps: seq<Step>) {
    forall i :: 0 <= i < |steps| ==> IsWait(steps[i])
  }

  predicate SameBusiness(s: System, t: System) {
    && t.tables.jobs == s.tables.jobs && t.queues == s.queues && t.hands == s.hands && t.procs == s.procs
  }

  ghost predicate AllIdle(s: System) {
    forall w :: Alert(s, w) ==> s.procs[w].phase.Idle?
  }

  predicate BeatNow(s: System, w: WorkerId) {
    w in s.tables.workers && s.tables.workers[w].lastHeartbeat == s.now
  }

  lemma OneBeat(cfg: Config, h: Handlers, s: System, w: WorkerId)
    requires Sane(cfg) && Timely(cfg, s) && Alert(s, w)
    ensures var step := Work(w, Beat);
            && Takes(cfg, h, s, step)
            && SameBusiness(s, Apply(cfg, s, step)) && Apply(cfg, s, step).now == s.now
            && BeatNow(Apply(cfg, s, step), w)
            && forall v :: BeatNow(s, v) ==> BeatNow(Apply(cfg, s, step), v)
  {}

  lemma {:induction false} EveryoneBeats(cfg: Config, h: Handlers, s: System, todo: set<WorkerId>)
    returns (steps: seq<Step>, t: System)
    requires Sane(cfg) && Timely(cfg, s) && forall w :: w in todo ==> Alert(s, w)
    ensures Leads(cfg, h, s, steps, t) && Timely(cfg, t) && SameBusiness(s, t) && t.now == s.now && Patient(steps)
    ensures forall w :: w in todo || BeatNow(s, w) ==> BeatNow(t, w)
    decreases todo
  {
    if todo == {} {
      steps, t := [], s;
    } else {
      var w :| w in todo;
      OneBeat(cfg, h, s, w);
      var s' := Apply(cfg, s, Work(w, Beat));
      var rest, u := EveryoneBeats(cfg, h, s', todo - {w});
      LeadsOnce(cfg, h, s, Work(w, Beat));
      LeadsThrough(cfg, h, s, [Work(w, Beat)], s', rest, u);
      steps, t := [Work(w, Beat)] + rest, u;
    }
  }

  lemma OneTick(cfg: Config, h: Handlers, s: System, to: Time)
    requires Sane(cfg) && s.now <= to <= s.now + cfg.beat
    requires AllIdle(s) && forall w :: Alert(s, w) ==> BeatNow(s, w)
    ensures var step := Env(Tick(to));
            Takes(cfg, h, s, step) && SameBusiness(s, Apply(cfg, s, step)) && Apply(cfg, s, step).now == to
  {
    var s' := Apply(cfg, s, Env(Tick(to)));
    forall w | Alert(s', w)
      ensures w in s'.tables.workers && s'.now - s'.tables.workers[w].lastHeartbeat <= cfg.beat
              && s'.procs[w].phase.Idle?
    {
      assert Alert(s, w) && BeatNow(s, w);
    }
  }

  lemma Round(cfg: Config, h: Handlers, s: System, to: Time) returns (steps: seq<Step>, t: System)
    requires Sane(cfg) && Timely(cfg, s) && AllIdle(s) && s.now <= to <= s.now + cfg.beat
    ensures Leads(cfg, h, s, steps, t) && Timely(cfg, t) && SameBusiness(s, t) && t.now == to && Patient(steps)
  {
    var front, u := EveryoneBeats(cfg, h, s, set w | w in s.procs && s.procs[w].live);
    OneTick(cfg, h, u, to);
    LeadsOnce(cfg, h, u, Env(Tick(to)));
    t := Apply(cfg, u, Env(Tick(to)));
    LeadsThrough(cfg, h, s, front, u, [Env(Tick(to))], t);
    steps := front + [Env(Tick(to))];
  }

  function Span(n: nat, beat: Time): Time {
    if n == 0 then 0.0 else Span(n - 1, beat) + beat
  }

  lemma {:induction false} SpanIsProduct(n: nat, beat: Time)
    ensures Span(n, beat) == n as real * beat
  {
    if n > 0 {
      SpanIsProduct(n - 1, beat);
      var k := (n - 1) as real;
      assert n as real == k + 1.0;
      assert (k + 1.0) * beat == k * beat + beat;
    }
  }

  lemma EnoughRounds(distance: Time, beat: Time) returns (n: nat)
    requires beat > 0.0 && distance >= 0.0
    ensures Span(n, beat) >= distance
  {
    var ratio := distance / beat;
    assert ratio * beat == distance;
    assert ratio >= 0.0;
    n := ratio.Floor + 1;
    SpanIsProduct(n, beat);
    var gap := n as real - ratio;
    assert gap * beat >= 0.0;
    assert n as real * beat == ratio * beat + gap * beat;
  }

  lemma {:induction false} Wait(cfg: Config, h: Handlers, s: System, until: Time, n: nat)
    returns (steps: seq<Step>, t: System)
    requires Sane(cfg) && Timely(cfg, s) && AllIdle(s) && s.now <= until <= s.now + Span(n, cfg.beat)
    ensures Leads(cfg, h, s, steps, t) && Timely(cfg, t) && SameBusiness(s, t) && t.now == until && Patient(steps)
    decreases n
  {
    if n == 0 {
      steps, t := [], s;
    } else {
      var to := if until <= s.now + cfg.beat then until else s.now + cfg.beat;
      var front, u := Round(cfg, h, s, to);
      assert forall w :: Alert(u, w) ==> Alert(s, w);
      if until == to {
        steps, t := front, u;
      } else {
        var back, v := Wait(cfg, h, u, until, n - 1);
        LeadsThrough(cfg, h, s, front, u, back, v);
        steps, t := front + back, v;
      }
    }
  }

  // ---- Something productive can always be done, at once or after waiting ----

  ghost predicate CanWork(cfg: Config, h: Handlers, s: System, step: Step) {
    Takes(cfg, h, s, step) && Productive(cfg, s, step)
  }

  lemma {:induction false} FreshLetter(letters: set<LetterId>) returns (l: LetterId)
    ensures l !in letters && forall m :: m in letters ==> m < l
  {
    if letters == {} {
      l := 0;
    } else {
      var m :| m in letters;
      var bound := FreshLetter(letters - {m});
      l := if m < bound then bound else m + 1;
      assert forall x :: x in letters ==> x == m || x in letters - {m};
    }
  }

  /** The next step of a busy worker, whatever the handler's outcome. */
  lemma NextAct(cfg: Config, h: Handlers, s: System, w: WorkerId) returns (act: WorkerAct)
    requires FairDraws(h) && Alert(s, w) && !s.procs[w].phase.Idle?
    ensures WorkEnabled(cfg, s, w, act) && Obeys(h, s, Work(w, act))
    ensures !act.Register? && !act.Crash? && !act.Succession? && !act.Quit?
    ensures Advances(cfg, s, Work(w, act), s.procs[w].phase.id)
  {
    match s.procs[w].phase
    case Carrying(_) => act := StashIt;
    case Reserved(_) => act := LockIt;
    case Executing(_, _, _) =>
      if h(s, w).Returns? {
        act := Succeed(h(s, w).result);
      } else {
        var letter := FreshLetter(s.tables.letters.Keys);
        act := Fail(h(s, w).error, h(s, w).draw, letter);
      }
    case Finishing(_) => act := SkipSuccession;
    case Announcing(_, _) => act := Announce;
    case Settled(_) => act := AckIt;
  }

  predicate TimelyAt(cfg: Config, s: System, w: WorkerId) {
    Alert(s, w) ==>
      && w in s.tables.workers && s.now - s.tables.workers[w].lastHeartbeat <= cfg.beat
      && (s.procs[w].phase.Executing? ==> s.now - s.procs[w].phase.since <= cfg.visibilityTimeout)
  }

  lemma OwnWorkIsTimely(cfg: Config, s: System, w: WorkerId, act: WorkerAct)
    requires Sane(cfg) && TimelyAt(cfg, s, w) && WorkEnabled(cfg, s, w, act)
    requires !act.Register? && !act.Crash? && !act.Succession? && !act.Quit?
    ensures TimelyAt(cfg, Work1(cfg, s, w, act), w) && Alert(Work1(cfg, s, w, act), w)
  {
    WorkMovesOneProcess(cfg, s, w, act);
    if !act.Beat? {
      WorkKeepsWorkers(cfg, s, w, act);
    }
  }

  lemma ActTakes(cfg: Config, h: Handlers, s: System, w: WorkerId, act: WorkerAct)
    requires Sane(cfg) && Timely(cfg, s) && WorkEnabled(cfg, s, w, act)
    requires !act.Register? && !act.Crash? && !act.Succession? && !act.Quit? && Obeys(h, s, Work(w, act))
    ensures Takes(cfg, h, s, Work(w, act))
    ensures forall v :: Alert(s, v) ==> Alert(Work1(cfg, s, w, act), v)
  {
    var s' := Work1(cfg, s, w, act);
    forall v ensures TimelyAt(cfg, s', v) && (Alert(s, v) ==> Alert(s', v)) {
      assert TimelyAt(cfg, s, v);
      if v == w {
        OwnWorkIsTimely(cfg, s, w, act);
      } else {
        WorkKeepsOtherWorkers(cfg, s, w, act, v);
        WorkMovesOneProcess(cfg, s, w, act);
      }
    }
  }

  lemma BusyWorkerCanWork(cfg: Config, h: Handlers, s: System, w: WorkerId) returns (act: WorkerAct)
    requires Sane(cfg) && FairDraws(h) && Timely(cfg, s) && Alert(s, w) && !s.procs[w].phase.Idle?
    ensures CanWork(cfg, h, s, Work(w, act))
  {
    act := NextAct(cfg, h, s, w);
    ActTakes(cfg, h, s, w, act);
  }

  lemma WaitingListCanWork(cfg: Config, h: Handlers, s: System, w: WorkerId, tier: Tier)
    requires Sane(cfg) && Timely(cfg, s) && Alert(s, w) && s.procs[w].phase.Idle? && s.queues.Lane(tier) != []
    ensures CanWork(cfg, h, s, Work(w, ReserveFrom(tier)))
  {
    ActTakes(cfg, h, s, w, ReserveFrom(tier));
    assert Advances(cfg, s, Work(w, ReserveFrom(tier)), Last(s.queues.Lane(tier)));
  }

  lemma DaemonTakes(cfg: Config, h: Handlers, s: System, act: DaemonAct)
    requires Timely(cfg, s) && DaemonEnabled(s, act) && !act.Resync? && !act.Expire?
    ensures Takes(cfg, h, s, Daemon(act)) && Daemon1(cfg, s, act).procs == s.procs
  {
    var s' := Daemon1(cfg, s, act);
    assert s'.procs == s.procs && s'.now == s.now && s'.tables.workers == s.tables.workers;
    assert forall v :: Alert(s', v) <==> Alert(s, v);
  }

  lemma DaemonCanWork(cfg: Config, h: Handlers, s: System, act: DaemonAct, id: JobId)
    requires Timely(cfg, s) && DaemonEnabled(s, act) && Advances(cfg, s, Daemon(act), id)
    ensures CanWork(cfg, h, s, Daemon(act))
  {
    DaemonTakes(cfg, h, s, act);
  }

  /** A live worker, a pending push or a waiting list means there is work now. */
  lemma WorkAtHand(cfg: Config, h: Handlers, s: System, w: WorkerId, id: JobId) returns (step: Step)
    requires Sane(cfg) && FairDraws(h) && Timely(cfg, s) && Alert(s, w)
    requires !AllIdle(s) || s.hands.Count(id) > 0 || id in s.queues.high || id in s.queues.normal || id in s.queues.low
    ensures CanWork(cfg, h, s, step)
  {
    if v :| Alert(s, v) && !s.procs[v].phase.Idle? {
      var act := BusyWorkerCanWork(cfg, h, s, v);
      step := Work(v, act);
    } else if s.hands.Count(id) > 0 {
      var route :| id in s.hands.On(route);
      DaemonCanWork(cfg, h, s, Push(route, id), id);
      step := Daemon(Push(route, id));
    } else {
      var tier := if id in s.queues.high then High else if id in s.queues.normal then Default else Low;
      WaitingListCanWork(cfg, h, s, w, tier);
      step := Work(w, ReserveFrom(tier));
    }
  }

  /** The moment at which waiting ends for an unfinished job that nobody can work on now. */
  function WakeTime(cfg: Config, s: System, id: JobId): Time
    requires id in s.tables.jobs && LocksMatch(s.tables.jobs[id])
  {
    var row := s.tables.jobs[id];
    match row.status
    case Pending => if id in s.queues.scheduled then s.queues.scheduled[id] else s.now
    case Retrying => row.nextRetryAt.value
    case Running => row.lockedAt.value + cfg.visibilityTimeout + 1.0
    case _ => s.now
  }

  lemma AwakeCanWork(cfg: Config, h: Handlers, s: System, id: JobId) returns (step: Step)
    requires Timely(cfg, s) && id in s.tables.jobs && LocksMatch(s.tables.jobs[id])
    requires !Final(s.tables.jobs[id].status) && s.now >= WakeTime(cfg, s, id)
    requires s.tables.jobs[id].status == Pending ==> id in s.queues.scheduled
    ensures CanWork(cfg, h, s, step)
  {
    match s.tables.jobs[id].status
    case Pending =>
      step := Daemon(PromoteDue);
      DaemonCanWork(cfg, h, s, PromoteDue, id);
    case Retrying =>
      step := Daemon(PromoteRetries(ByScheduler));
      DaemonCanWork(cfg, h, s, PromoteRetries(ByScheduler), id);
    case Running =>
      step := Daemon(Reclaim(ByScheduler));
      DaemonCanWork(cfg, h, s, Reclaim(ByScheduler), id);
  }

  lemma WaitThenWork(cfg: Config, h: Handlers, s: System, id: JobId) returns (steps: seq<Step>, t: System, step: Step)
    requires Sane(cfg) && cfg.beat > 0.0 && Timely(cfg, s) && AllIdle(s)
    requires id in s.tables.jobs && !Final(s.tables.jobs[id].status) && LocksMatch(s.tables.jobs[id])
    requires s.tables.jobs[id].status == Pending ==> id in s.queues.scheduled
    ensures Leads(cfg, h, s, steps, t) && CanWork(cfg, h, t, step) && t.procs == s.procs && Patient(steps)
  {
    var wake := WakeTime(cfg, s, id);
    if wake <= s.now {
      steps, t := [], s;
    } else {
      var n := EnoughRounds(wake - s.now, cfg.beat);
      steps, t := Wait(cfg, h, s, wake, n);
    }
    assert WakeTime(cfg, t, id) == wake || wake == s.now;
    step := AwakeCanWork(cfg, h, t, id);
  }

  lemma UnfinishedCanProgress(cfg: Config, h: Handlers, s: System, w: WorkerId, id: JobId)
    returns (steps: seq<Step>, t: System, step: Step)
    requires Sane(cfg) && FairDraws(h) && cfg.beat > 0.0 && Timely(cfg, s) && Settling(s) && Alert(s, w)
    requires id in s.tables.jobs && !Final(s.tables.jobs[id].status)
    ensures Leads(cfg, h, s, steps, t) && CanWork(cfg, h, t, step) && t.procs == s.procs && Patient(steps)
  {
    assert Kept(s, id);
    if !AllIdle(s) || s.hands.Count(id) > 0 || id in s.queues.high || id in s.queues.normal || id in s.queues.low {
      step := WorkAtHand(cfg, h, s, w, id);
      steps, t := [], s;
    } else {
      assert !Carried(s, id);
      steps, t, step := WaitThenWork(cfg, h, s, id);
    }
  }

  predicate AllFinal(s: System) {
    forall id :: id in s.tables.jobs ==> Final(s.tables.jobs[id].status)
  }

  lemma OwnWorkStaysLive(cfg: Config, s: System, w: WorkerId, act: WorkerAct)
    requires WorkEnabled(cfg, s, w, act) && !act.Crash? && !act.Quit?
    ensures Alert(Work1(cfg, s, w, act), w)
  {}

  lemma WorkerStays(cfg: Config, s: System, step: Step, w: WorkerId)
    requires Enabled(cfg, s, step) && Alert(s, w) && Productive(cfg, s, step)
    ensures Alert(Apply(cfg, s, step), w)
  {
    if step.Work? {
      ProductiveIsNoExit(cfg, s, step);
      if step.w == w {
        OwnWorkStaysLive(cfg, s, w, step.act);
      } else {
        WorkKeepsOtherWorkers(cfg, s, step.w, step.act, w);
      }
    } else if step.Daemon? {
      DaemonKeepsProcs(cfg, s, step.daemon);
    }
  }

  lemma ProductiveIsNoExit(cfg: Config, s: System, step: Step)
    requires Productive(cfg, s, step)
    ensures step.Work? ==> !step.act.Crash? && !step.act.Quit?
    ensures step.Work? || step.Daemon?
  {
    var id :| Advances(cfg, s, step, id);
  }

  /** With one live worker and no new work, every job is brought to a final status, whatever its handler does. */
  lemma {:induction false} CanFinish(cfg: Config, h: Handlers, s: System, w: WorkerId)
    returns (steps: seq<Step>, t: System)
    requires Sane(cfg) && FairDraws(h) && cfg.beat > 0.0 && Timely(cfg, s) && Settling(s) && Alert(s, w)
    ensures Leads(cfg, h, s, steps, t) && AllFinal(t)
    decreases TotalPotential(s)
  {
    if AllFinal(s) {
      steps, t := [], s;
    } else {
      var id :| id in s.tables.jobs && !Final(s.tables.jobs[id].status);
      var front, u, step := UnfinishedCanProgress(cfg, h, s, w, id);
      LeadsSettles(cfg, h, s, front, u);
      TotalPays(cfg, u, step);
      TotalsNonnegative(s);
      StepSettles(cfg, h, u, step);
      var v := Apply(cfg, u, step);
      TotalsNonnegative(v);
      assert Alert(u, w);
      WorkerStays(cfg, u, step, w);
      var back, last := CanFinish(cfg, h, v, w);
      LeadsOnce(cfg, h, u, step);
      LeadsThrough(cfg, h, u, [step], v, back, last);
      LeadsThrough(cfg, h, s, front, u, [step] + back, last);
      steps, t := front + ([step] + back), last;
    }
  }

  /**
   Whatever the handlers do, every timely, loyal run can be continued to completion as long as one worker is
   alive, with no more executions than the jobs were given attempts.
   */
  lemma EveryRunCanFinish(cfg: Config, h: Handlers, ss: seq<System>, steps: seq<Step>, n: nat, w: WorkerId)
    returns (more: seq<Step>, t: System)
    requires LoyalRun(cfg, ss, steps) && n < |ss| && cfg.beat > 0.0 && Alert(ss[n], w) && FairDraws(h)
    ensures Leads(cfg, h, ss[n], more, t) && AllFinal(t)
    ensures TotalLocks(t) - TotalLocks(ss[n]) <= TotalFuel(ss[n]) <= TotalAttempts(ss[n])
  {
    RunSettles(cfg, ss, steps, n);
    more, t := CanFinish(cfg, h, ss[n], w);
    LeadsSettles(cfg, h, ss[n], more, t);
    TotalsNonnegative(t);
    BudgetSplits(ss[n]);
    BudgetSplits(t);
    AlwaysGrounded(cfg, ss, steps, n);
    FuelBelowAttempts(ss[n]);
  }
}
