/**
 Which tier a waiting job is in. Jobs are documented to wait in the tier of their priority; this says which steps
 put a job elsewhere, and which jobs are never put elsewhere.
 */
module Routing {
  import opened Domain
  import opened Tables
  import opened Queues
  import opened Protocol
  import opened Frames
  import opened Grounding

  /** Every tier list that holds the job is the one its priority calls for. */
  ghost predicate OwnTierAt(s: System, id: JobId) {
    forall tier: Tier :: id in s.queues.Lane(tier) ==> tier == TierOf(SpecOf(s, id).priority)
  }

  /** A push that ignores the priority, or the promotion script, moves a job of another tier to the default one. */
  predicate Misroutes(s: System, step: Step, id: JobId) {
    && SpecOf(s, id).priority != 0
    && step.Daemon?
    && (|| step.daemon == Push(ToDefault, id)
        || step.daemon == Push(GiveBack, id)
        || (step.daemon.PromoteDue? && Due(s.queues.scheduled, id, s.now)))
  }

  // ---- Steps that add the job to no list ----

  /** The job, whose priority is as before, is in no list that did not hold it already. */
  ghost predicate GainsNothing(s: System, s': System, id: JobId) {
    && SpecOf(s', id).priority == SpecOf(s, id).priority
    && forall tier: Tier :: id in s'.queues.Lane(tier) ==> id in s.queues.Lane(tier)
  }

  lemma TierKept(s: System, s': System, id: JobId)
    requires OwnTierAt(s, id) && GainsNothing(s, s', id)
    ensures OwnTierAt(s', id)
  {}

  /** A row that appears had no reference before. */
  lemma NewRowHasNoLane(s: System, s': System, id: JobId)
    requires GroundedAt(s, id) && id !in s.tables.jobs && s'.queues == s.queues
    ensures OwnTierAt(s', id)
  {}

  lemma PopGains(q: Queues, tier: Tier, id: JobId)
    requires q.Lane(tier) != []
    ensures forall t: Tier :: id in Pop(q, tier).Lane(t) ==> id in q.Lane(t)
    ensures forall t: Tier :: Reserve(q, tier).Lane(t) == Pop(q, tier).Lane(t)
  {}

  lemma SpecKept(cfg: Config, s: System, step: Step, id: JobId)
    requires Enabled(cfg, s, step) && id in s.tables.jobs
    ensures SpecOf(Apply(cfg, s, step), id) == SpecOf(s, id)
  {
    RowsPersist(cfg, s, step, id);
  }

  lemma WorkGainsNothing(cfg: Config, s: System, w: WorkerId, act: WorkerAct, id: JobId)
    requires WorkEnabled(cfg, s, w, act) && id in s.tables.jobs
    ensures GainsNothing(s, Work1(cfg, s, w, act), id)
  {
    SpecKept(cfg, s, Work(w, act), id);
    if act.ReserveFrom? || act.BlockOn? {
      PopGains(s.queues, act.tier, id);
    } else {
      WorkKeepsLanes(cfg, s, w, act);
    }
  }

  lemma SweepGains(q: Queues, place: Place, x: JobId, id: JobId)
    ensures forall t: Tier :: id in Sweep(q, place, x).Lane(t) ==> id in q.Lane(t)
  {
    if place.Waiting? {
      assert multiset(RemoveAll(q.Lane(place.tier), x)) == multiset(q.Lane(place.tier))[x := 0];
      assert id in RemoveAll(q.Lane(place.tier), x) ==> id in multiset(RemoveAll(q.Lane(place.tier), x));
    }
  }

  lemma SweepAllGains(q: Queues, x: JobId, id: JobId)
    ensures forall t: Tier :: id in SweepAll(q, x).Lane(t) ==> id in q.Lane(t)
  {
    var a := Sweep(q, Waiting(Default), x);
    var b := Sweep(a, Waiting(High), x);
    SweepGains(q, Waiting(Default), x, id);
    SweepGains(a, Waiting(High), x, id);
    SweepGains(b, Waiting(Low), x, id);
    SweepGains(Sweep(b, Waiting(Low), x), Calendar, x, id);
  }

  lemma ClientGainsNothing(cfg: Config, s: System, act: ClientAct, id: JobId)
    requires ClientEnabled(cfg, s, act) && id in s.tables.jobs
    ensures GainsNothing(s, Client1(cfg, s, act), id)
  {
    SpecKept(cfg, s, Client(act), id);
    if act.Cancel? {
      SweepAllGains(s.queues, act.id, id);
    } else if act.Remove? {
      SweepGains(s.queues, act.place, act.id, id);
    }
  }

  predicate Delivers(step: Step) {
    step.Daemon? && (step.daemon.Push? || step.daemon.PromoteDue?)
  }

  /** Only a push and the promotion script add a job to a list. */
  lemma OthersGainNothing(cfg: Config, s: System, step: Step, id: JobId)
    requires Enabled(cfg, s, step) && id in s.tables.jobs && !Delivers(step)
    ensures GainsNothing(s, Apply(cfg, s, step), id)
  {
    match step
    case Work(w, act) => WorkGainsNothing(cfg, s, w, act, id);
    case Daemon(act) =>
      SpecKept(cfg, s, step, id);
      DaemonKeepsQueues(cfg, s, act);
    case Client(act) => ClientGainsNothing(cfg, s, act, id);
    case Env(act) =>
  }

  // ---- Pushes and the script ----

  lemma IdlePushGains(s: System, route: Route, x: JobId, id: JobId)
    requires x != id || route == Unprocess || route == OnCalendar
    ensures forall t: Tier :: id in PushStep(s, route, x).queues.Lane(t) ==> id in s.queues.Lane(t)
  {}

  lemma IdlePushRoutes(s: System, route: Route, x: JobId, id: JobId)
    requires OwnTierAt(s, id) && (x != id || route == Unprocess || route == OnCalendar)
    ensures OwnTierAt(PushStep(s, route, x), id)
  {
    IdlePushGains(s, route, x, id);
    TierKept(s, PushStep(s, route, x), id);
  }

  lemma PriorityPushRoutes(s: System, id: JobId)
    requires OwnTierAt(s, id)
    ensures OwnTierAt(PushStep(s, ByPriority, id), id)
  {
    var tier := TierOf(SpecOf(s, id).priority);
    assert forall t: Tier :: t != tier ==> LPush(s.queues, tier, id).Lane(t) == s.queues.Lane(t);
  }

  lemma DefaultPushRoutes(s: System, route: Route, id: JobId)
    requires OwnTierAt(s, id) && (route == ToDefault || route == GiveBack)
    ensures OwnTierAt(PushStep(s, route, id), id) <==> SpecOf(s, id).priority == 0
  {
    var s' := PushStep(s, route, id);
    assert id in s'.queues.Lane(Default);
    assert forall t: Tier :: t != Default ==> s'.queues.Lane(t) == s.queues.Lane(t);
  }

  lemma PushRoutes(s: System, route: Route, x: JobId, id: JobId)
    requires id in s.tables.jobs && OwnTierAt(s, id)
    ensures OwnTierAt(PushStep(s, route, x), id) <==> !Misroutes(s, Daemon(Push(route, x)), id)
  {
    if x != id || route == Unprocess || route == OnCalendar {
      IdlePushRoutes(s, route, x, id);
    } else if route == ByPriority {
      PriorityPushRoutes(s, id);
    } else {
      DefaultPushRoutes(s, route, id);
    }
  }

  lemma PromotionGains(q: Queues, now: Time, id: JobId)
    ensures id in Promote(q, now).normal <==> Due(q.scheduled, id, now) || id in q.normal
  {
    var due := DueOrder(q.scheduled, now);
    assert id in multiset(Reverse(due)) <==> id in multiset(due);
    assert id in due <==> id in DueSet(q.scheduled, now);
  }

  lemma PromotionRoutes(cfg: Config, s: System, id: JobId)
    requires id in s.tables.jobs && OwnTierAt(s, id)
    ensures OwnTierAt(Daemon1(cfg, s, PromoteDue), id) <==> !Misroutes(s, Daemon(PromoteDue), id)
  {
    var s' := Daemon1(cfg, s, PromoteDue);
    PromotionGains(s.queues, s.now, id);
    assert s'.queues.Lane(High) == s.queues.Lane(High) && s'.queues.Lane(Low) == s.queues.Lane(Low);
    if id in s'.queues.Lane(Default) && !Due(s.queues.scheduled, id, s.now) {
      assert id in s.queues.Lane(Default);
    }
  }

  lemma StepRoutes(cfg: Config, s: System, step: Step, id: JobId)
    requires Enabled(cfg, s, step) && id in s.tables.jobs && OwnTierAt(s, id)
    ensures OwnTierAt(Apply(cfg, s, step), id) <==> !Misroutes(s, step, id)
  {
    if !Delivers(step) {
      OthersGainNothing(cfg, s, step, id);
      TierKept(s, Apply(cfg, s, step), id);
    } else if step.daemon.Push? {
      PushRoutes(s, step.daemon.route, step.daemon.id, id);
    } else {
      PromotionRoutes(cfg, s, id);
    }
  }

  // ---- Whole runs ----

  /** Submitted without a scheduled time. */
  predicate AtOnce(s: System, id: JobId) {
    id in s.tables.jobs && s.tables.jobs[id].scheduledFor.None?
  }

  lemma WorkInserts(cfg: Config, s: System, w: WorkerId, act: WorkerAct, id: JobId)
    requires WorkEnabled(cfg, s, w, act) && id !in s.tables.jobs && id in Work1(cfg, s, w, act).tables.jobs
    ensures act == Succession(id) && !AtOnce(Work1(cfg, s, w, act), id)
  {
    if !act.Succession? && !WritesRow(act) {
      QuietWorkKeepsRows(cfg, s, w, act);
    } else if WritesRow(act) {
      WriteKeepsPhaseId(cfg, s, w, act);
    }
  }

  lemma ClientInserts(cfg: Config, s: System, act: ClientAct, id: JobId)
    requires ClientEnabled(cfg, s, act) && id !in s.tables.jobs && id in Client1(cfg, s, act).tables.jobs
    ensures act.Submit? && act.id == id
  {}

  /** Rows appear by submission, or as the successor of a recurring job, which is scheduled. */
  lemma WhoInserts(cfg: Config, s: System, step: Step, id: JobId)
    requires Enabled(cfg, s, step) && id !in s.tables.jobs && id in Apply(cfg, s, step).tables.jobs
    ensures Apply(cfg, s, step).queues == s.queues
    ensures (step.Client? && step.client.Submit? && step.client.id == id) || !AtOnce(Apply(cfg, s, step), id)
  {
    match step
    case Work(w, act) => WorkInserts(cfg, s, w, act, id);
    case Daemon(act) => DaemonKeepsProcs(cfg, s, act);
    case Client(act) => ClientInserts(cfg, s, act, id);
    case Env(act) =>
  }

  lemma UnknownJobWaitsNowhere(s: System, id: JobId)
    requires Grounded(s) && id !in s.tables.jobs
    ensures OwnTierAt(s, id)
  {
    assert GroundedAt(s, id);
  }

  /** In any run, a job only in its own tier is so after the next step if and only if that does not misroute it. */
  lemma StepRoutesExactly(cfg: Config, ss: seq<System>, steps: seq<Step>, n: nat, id: JobId)
    requires Run(cfg, ss, steps) && Initial(ss[0]) && n < |steps| && OwnTierAt(ss[n], id)
    ensures OwnTierAt(ss[n + 1], id) <==> !Misroutes(ss[n], steps[n], id)
  {
    AlwaysGrounded(cfg, ss, steps, n);
    AlwaysGrounded(cfg, ss, steps, n + 1);
    assert GroundedAt(ss[n], id) && GroundedAt(ss[n + 1], id);
    if id in ss[n].tables.jobs {
      StepRoutes(cfg, ss[n], steps[n], id);
    } else if id in ss[n + 1].tables.jobs {
      WhoInserts(cfg, ss[n], steps[n], id);
      NewRowHasNoLane(ss[n], ss[n + 1], id);
    } else {
      UnknownJobWaitsNowhere(ss[n + 1], id);
    }
  }

  /** Until a step misroutes it a job is in its own tier only, whatever a run does. */
  lemma {:induction false} OwnTierUntilMisrouted(cfg: Config, ss: seq<System>, steps: seq<Step>, n: nat, id: JobId)
    requires Run(cfg, ss, steps) && Initial(ss[0]) && n < |ss|
    requires forall i {:trigger steps[i]} :: 0 <= i < n ==> !Misroutes(ss[i], steps[i], id)
    ensures OwnTierAt(ss[n], id)
    decreases n
  {
    if n > 0 {
      OwnTierUntilMisrouted(cfg, ss, steps, n - 1, id);
      StepRoutesExactly(cfg, ss, steps, n - 1, id);
    }
  }

  // ---- The high and the low tier hold no strangers ----

  ghost predicate OnlyDefaultStrays(s: System, id: JobId) {
    forall tier: Tier :: id in s.queues.Lane(tier) ==> tier == Default || tier == TierOf(SpecOf(s, id).priority)
  }

  lemma PushStrays(s: System, route: Route, x: JobId, id: JobId)
    requires OnlyDefaultStrays(s, id)
    ensures OnlyDefaultStrays(PushStep(s, route, x), id)
  {
    var s' := PushStep(s, route, x);
    forall tier: Tier | id in s'.queues.Lane(tier) && tier != Default
      ensures tier == TierOf(SpecOf(s, id).priority)
    {
      assert id in s.queues.Lane(tier) || (route == ByPriority && x == id);
    }
  }

  lemma PromotionStrays(cfg: Config, s: System, id: JobId)
    requires OnlyDefaultStrays(s, id)
    ensures OnlyDefaultStrays(Daemon1(cfg, s, PromoteDue), id)
  {
    var s' := Daemon1(cfg, s, PromoteDue);
    assert s'.queues.Lane(High) == s.queues.Lane(High) && s'.queues.Lane(Low) == s.queues.Lane(Low);
  }

  lemma NoGainNoStray(s: System, s': System, id: JobId)
    requires OnlyDefaultStrays(s, id) && GainsNothing(s, s', id)
    ensures OnlyDefaultStrays(s', id)
  {}

  lemma StepStrays(cfg: Config, s: System, step: Step, id: JobId)
    requires Enabled(cfg, s, step) && id in s.tables.jobs && OnlyDefaultStrays(s, id)
    ensures OnlyDefaultStrays(Apply(cfg, s, step), id)
  {
    if !Delivers(step) {
      OthersGainNothing(cfg, s, step, id);
      NoGainNoStray(s, Apply(cfg, s, step), id);
    } else if step.daemon.Push? {
      PushStrays(s, step.daemon.route, step.daemon.id, id);
    } else {
      PromotionStrays(cfg, s, id);
    }
  }

  lemma RunStrays(cfg: Config, ss: seq<System>, steps: seq<Step>, n: nat, id: JobId)
    requires Run(cfg, ss, steps) && Initial(ss[0]) && n < |steps| && OnlyDefaultStrays(ss[n], id)
    ensures OnlyDefaultStrays(ss[n + 1], id)
  {
    if id in ss[n].tables.jobs {
      StepStrays(cfg, ss[n], steps[n], id);
    } else {
      AlwaysGrounded(cfg, ss, steps, n);
      UnknownJobWaitsNowhere(ss[n], id);
      StepRoutesExactly(cfg, ss, steps, n, id);
    }
  }

  lemma {:induction false} AlwaysOnlyDefaultStrays(cfg: Config, ss: seq<System>, steps: seq<Step>, n: nat, id: JobId)
    requires Run(cfg, ss, steps) && Initial(ss[0]) && n < |ss|
    ensures OnlyDefaultStrays(ss[n], id)
  {
    if n > 0 {
      AlwaysOnlyDefaultStrays(cfg, ss, steps, n - 1, id);
      RunStrays(cfg, ss, steps, n - 1, id);
    }
  }

  /** In every reachable state the high tier holds jobs of positive priority only, and the low tier of negative. */
  lemma HighAndLowAreOwn(cfg: Config, ss: seq<System>, steps: seq<Step>, n: nat, id: JobId)
    requires Run(cfg, ss, steps) && Initial(ss[0]) && n < |ss|
    ensures id in ss[n].queues.high ==> id in ss[n].tables.jobs && ss[n].tables.jobs[id].spec.priority > 0
    ensures id in ss[n].queues.low ==> id in ss[n].tables.jobs && ss[n].tables.jobs[id].spec.priority < 0
  {
    AlwaysGrounded(cfg, ss, steps, n);
    assert GroundedAt(ss[n], id);
    AlwaysOnlyDefaultStrays(cfg, ss, steps, n, id);
    assert ss[n].queues.Lane(High) == ss[n].queues.high && ss[n].queues.Lane(Low) == ss[n].queues.low;
  }

  // ---- Jobs that always wait in their own tier ----

  /** The step puts the job in line for a push that ignores its priority. */
  predicate PutsAside(cfg: Config, s: System, step: Step, id: JobId) {
    || (step.Client? && step.client.Replay? && step.client.letter in s.tables.letters
        && s.tables.letters[step.client.letter].jobId == id)
    || (step == Daemon(Reclaim(ByReaper)) && Stale(s.tables, id, cfg.visibilityTimeout, s.now))
    || (step == Daemon(PromoteRetries(ByReaper)) && RetryDue(s.tables, id, s.now))
  }

  /** No pending push of the job will ignore its priority. */
  predicate PushedByPriority(h: Hands, id: JobId) {
    h.toDefault[id] == 0 && h.unprocess[id] == 0 && h.giveBack[id] == 0 && h.onCalendar[id] == 0
  }

  ghost predicate NeverScheduled(s: System, id: JobId) {
    && id !in s.queues.scheduled
    && forall w :: w in s.procs && s.procs[w].phase.Announcing? ==> s.procs[w].phase.next != id
  }

  ghost predicate Direct(s: System, id: JobId) {
    PushedByPriority(s.hands, id) && NeverScheduled(s, id)
  }

  lemma WorkAnnounces(cfg: Config, s: System, w: WorkerId, act: WorkerAct)
    requires WorkEnabled(cfg, s, w, act) && !act.Succession?
    ensures var s' := Work1(cfg, s, w, act);
            s'.procs[w].phase.Announcing? ==> w in s.procs && s'.procs[w].phase == s.procs[w].phase
  {}

  lemma WorkStaysDirect(cfg: Config, s: System, w: WorkerId, act: WorkerAct, id: JobId)
    requires WorkEnabled(cfg, s, w, act) && Direct(s, id) && (act.Succession? ==> act.next != id)
    ensures Direct(Work1(cfg, s, w, act), id)
  {
    WorkMovesOneProcess(cfg, s, w, act);
    if !act.Announce? {
      WorkKeepsSchedule(cfg, s, w, act);
    }
    if !act.Succession? {
      WorkAnnounces(cfg, s, w, act);
    }
  }

  lemma DaemonHandsOver(cfg: Config, s: System, act: DaemonAct, id: JobId)
    requires DaemonEnabled(s, act) && !act.Push? && AtOnce(s, id) && !PutsAside(cfg, s, Daemon(act), id)
    requires PushedByPriority(s.hands, id)
    ensures PushedByPriority(Daemon1(cfg, s, act).hands, id)
  {
    if act.Resync? {
      assert id !in PendingScheduled(s.tables);
    }
  }

  lemma TakeStaysByPriority(h: Hands, route: Route, x: JobId, id: JobId)
    requires PushedByPriority(h, id)
    ensures PushedByPriority(h.Take(route, x), id)
    ensures x != id ==> PushedByPriority(h.Take(route, x).Put(GiveBack, multiset{x}), id)
  {}

  lemma PushStaysDirect(s: System, route: Route, x: JobId, id: JobId)
    requires x in s.hands.On(route) && Direct(s, id)
    ensures Direct(PushStep(s, route, x), id)
  {
    TakeStaysByPriority(s.hands, route, x, id);
    assert route == ByPriority || x != id;
    assert id !in PushStep(s, route, x).queues.scheduled;
  }

  lemma DaemonKeepsSchedule(cfg: Config, s: System, act: DaemonAct, id: JobId)
    requires DaemonEnabled(s, act) && !act.Push? && id !in s.queues.scheduled
    ensures id !in Daemon1(cfg, s, act).queues.scheduled
  {
    if !act.PromoteDue? {
      DaemonKeepsQueues(cfg, s, act);
    }
  }

  lemma DaemonStaysDirect(cfg: Config, s: System, act: DaemonAct, id: JobId)
    requires DaemonEnabled(s, act) && Direct(s, id) && AtOnce(s, id) && !PutsAside(cfg, s, Daemon(act), id)
    ensures Direct(Daemon1(cfg, s, act), id)
  {
    if act.Push? {
      PushStaysDirect(s, act.route, act.id, id);
    } else {
      DaemonHandsOver(cfg, s, act, id);
      DaemonKeepsSchedule(cfg, s, act, id);
      DaemonKeepsProcs(cfg, s, act);
    }
  }

  lemma SweepKeepsSchedule(q: Queues, x: JobId, place: Place, id: JobId)
    requires id !in q.scheduled
    ensures id !in Sweep(q, place, x).scheduled && id !in SweepAll(q, x).scheduled
  {}

  lemma ClientStaysDirect(cfg: Config, s: System, act: ClientAct, id: JobId)
    requires ClientEnabled(cfg, s, act) && Direct(s, id) && AtOnce(s, id) && !PutsAside(cfg, s, Client(act), id)
    ensures Direct(Client1(cfg, s, act), id)
  {
    ClientKeepsClocks(cfg, s, act);
    if act.Cancel? {
      SweepKeepsSchedule(s.queues, act.id, Calendar, id);
    } else if act.Remove? {
      SweepKeepsSchedule(s.queues, act.id, act.place, id);
    }
  }

  lemma EnvStaysDirect(s: System, act: EnvAct, id: JobId)
    requires EnvEnabled(s, act) && Direct(s, id)
    ensures Direct(Env1(s, act), id)
  {}

  lemma StepStaysDirect(cfg: Config, s: System, step: Step, id: JobId)
    requires Enabled(cfg, s, step) && Direct(s, id) && AtOnce(s, id) && !PutsAside(cfg, s, step, id)
    ensures Direct(Apply(cfg, s, step), id)
  {
    match step
    case Work(w, act) => WorkStaysDirect(cfg, s, w, act, id);
    case Daemon(act) => DaemonStaysDirect(cfg, s, act, id);
    case Client(act) => ClientStaysDirect(cfg, s, act, id);
    case Env(act) => EnvStaysDirect(s, act, id);
  }

  /** The first push of a job that is due at once goes by its priority. */
  lemma SubmittedIsDirect(cfg: Config, s: System, act: ClientAct, id: JobId)
    requires ClientEnabled(cfg, s, act) && act.Submit? && act.id == id && GroundedAt(s, id)
    requires AtOnce(Client1(cfg, s, act), id)
    ensures Direct(Client1(cfg, s, act), id)
  {
    assert Client1(cfg, s, act).procs == s.procs;
    assert forall w :: w in s.procs ==> !Concerns(s.procs[w].phase, id);
  }

  lemma DirectIsNotMisrouted(s: System, step: Step, id: JobId)
    requires Direct(s, id) && (step.Daemon? ==> DaemonEnabled(s, step.daemon))
    ensures !Misroutes(s, step, id)
  {}

  lemma KnownStaysInTier(cfg: Config, s: System, step: Step, id: JobId)
    requires Enabled(cfg, s, step) && AtOnce(s, id) && OwnTierAt(s, id) && Direct(s, id) && !PutsAside(cfg, s, step, id)
    ensures OwnTierAt(Apply(cfg, s, step), id) && Direct(Apply(cfg, s, step), id)
  {
    StepStaysDirect(cfg, s, step, id);
    DirectIsNotMisrouted(s, step, id);
    StepRoutes(cfg, s, step, id);
  }

  lemma NewStartsInTier(cfg: Config, s: System, step: Step, id: JobId)
    requires Enabled(cfg, s, step) && Grounded(s) && id !in s.tables.jobs && AtOnce(Apply(cfg, s, step), id)
    ensures OwnTierAt(Apply(cfg, s, step), id) && Direct(Apply(cfg, s, step), id)
  {
    assert GroundedAt(s, id);
    WhoInserts(cfg, s, step, id);
    SubmittedIsDirect(cfg, s, step.client, id);
    NewRowHasNoLane(s, Apply(cfg, s, step), id);
  }

  /**
   A job submitted without a scheduled time waits in its own tier only, for as long as it is neither replayed nor
   recovered by the standalone reaper.
   */
  lemma {:induction false} DirectJobsKeepTheirTier(cfg: Config, ss: seq<System>, steps: seq<Step>, n: nat, id: JobId)
    requires Run(cfg, ss, steps) && Initial(ss[0]) && n < |ss| && AtOnce(ss[n], id)
    requires forall i {:trigger steps[i]} :: 0 <= i < n ==> !PutsAside(cfg, ss[i], steps[i], id)
    ensures OwnTierAt(ss[n], id) && Direct(ss[n], id)
  {
    if n > 0 {
      AlwaysGrounded(cfg, ss, steps, n - 1);
      if id in ss[n - 1].tables.jobs {
        RowsPersist(cfg, ss[n - 1], steps[n - 1], id);
        DirectJobsKeepTheirTier(cfg, ss, steps, n - 1, id);
        KnownStaysInTier(cfg, ss[n - 1], steps[n - 1], id);
      } else {
        NewStartsInTier(cfg, ss[n - 1], steps[n - 1], id);
      }
    }
  }
}
