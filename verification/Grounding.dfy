/** Every id that any list, hand, process or dead letter mentions has a row, and rows allow at least one attempt. */
module Grounding {
  import opened Domain
  import opened Tables
  import opened Queues
  import opened Protocol
  import opened Frames
  import opened Custody

  predicate Concerns(phase: Phase, id: JobId) {
    match phase
    case Idle => false
    case Announcing(x, next) => x == id || next == id
    case _ => phase.id == id
  }

  ghost predicate Traceless(s: System, id: JobId) {
    && !Queued(s.queues, id)
    && s.hands.Count(id) == 0
    && (forall w :: w in s.procs ==> !Concerns(s.procs[w].phase, id))
    && (forall l :: l in s.tables.letters ==> s.tables.letters[l].jobId != id)
  }

  ghost predicate GroundedAt(s: System, id: JobId) {
    if id in s.tables.jobs then s.tables.jobs[id].spec.maxAttempts >= 1 else Traceless(s, id)
  }

  ghost predicate Grounded(s: System) {
    forall id :: GroundedAt(s, id)
  }

  lemma ProcessIsGrounded(s: System, w: WorkerId)
    requires Grounded(s) && w in s.procs && !s.procs[w].phase.Idle?
    ensures s.procs[w].phase.id in s.tables.jobs
    ensures s.procs[w].phase.Announcing? ==> s.procs[w].phase.next in s.tables.jobs
  {
    assert GroundedAt(s, s.procs[w].phase.id);
    if s.procs[w].phase.Announcing? {
      assert GroundedAt(s, s.procs[w].phase.next);
    }
  }

  lemma WriteLetters(cfg: Config, s: System, w: WorkerId, act: WorkerAct)
    requires WorkEnabled(cfg, s, w, act) && WritesRow(act)
    ensures var s' := Work1(cfg, s, w, act);
            forall l :: l in s'.tables.letters ==>
              (l in s.tables.letters && s'.tables.letters[l] == s.tables.letters[l])
              || s'.tables.letters[l].jobId == s.procs[w].phase.id
  {}

  lemma WriteKeepsSpec(cfg: Config, s: System, w: WorkerId, act: WorkerAct, id: JobId)
    requires WorkEnabled(cfg, s, w, act) && WritesRow(act) && id in s.tables.jobs
    ensures var s' := Work1(cfg, s, w, act);
            id in s'.tables.jobs && s'.tables.jobs[id].spec == s.tables.jobs[id].spec
  {}

  lemma OutcomeGrounds(cfg: Config, s: System, w: WorkerId, act: WorkerAct, id: JobId)
    requires WorkEnabled(cfg, s, w, act) && WritesRow(act) && Grounded(s)
    ensures GroundedAt(Work1(cfg, s, w, act), id)
  {
    assert GroundedAt(s, id);
    ProcessIsGrounded(s, w);
    WorkMovesOneProcess(cfg, s, w, act);
    WriteKeepsPhaseId(cfg, s, w, act);
    WriteLetters(cfg, s, w, act);
    if id in s.tables.jobs {
      WriteKeepsSpec(cfg, s, w, act, id);
    } else {
      WriteKeepsOthers(cfg, s, w, act, id);
    }
  }

  lemma SuccessionGrounds(cfg: Config, s: System, w: WorkerId, act: WorkerAct, id: JobId)
    requires WorkEnabled(cfg, s, w, act) && act.Succession? && Grounded(s)
    ensures GroundedAt(Work1(cfg, s, w, act), id)
  {
    assert GroundedAt(s, id) && GroundedAt(s, s.procs[w].phase.id);
    ProcessIsGrounded(s, w);
  }

  lemma FetchGrounds(cfg: Config, s: System, w: WorkerId, act: WorkerAct, id: JobId)
    requires WorkEnabled(cfg, s, w, act) && (act.ReserveFrom? || act.BlockOn?) && GroundedAt(s, id)
    ensures GroundedAt(Work1(cfg, s, w, act), id)
  {
    PopKeeps(s.queues.Lane(act.tier), id);
  }

  lemma AnnounceGrounds(cfg: Config, s: System, w: WorkerId, act: WorkerAct, id: JobId)
    requires WorkEnabled(cfg, s, w, act) && act.Announce? && Grounded(s)
    ensures GroundedAt(Work1(cfg, s, w, act), id)
  {
    assert GroundedAt(s, id);
    ProcessIsGrounded(s, w);
  }

  lemma QuietStaysGrounded(s: System, s': System, w: WorkerId, id: JobId)
    requires GroundedAt(s, id) && s'.tables.jobs == s.tables.jobs && s'.tables.letters == s.tables.letters
    requires s'.hands == s.hands && s'.queues.scheduled == s.queues.scheduled
    requires forall t: Tier :: s'.queues.Lane(t) == s.queues.Lane(t)
    requires w in s'.procs && s'.procs == s.procs[w := s'.procs[w]]
    requires Concerns(s'.procs[w].phase, id) ==> w in s.procs && Concerns(s.procs[w].phase, id)
    ensures GroundedAt(s', id)
  {
    assert s'.queues.Lane(High) == s.queues.Lane(High) && s'.queues.Lane(Default) == s.queues.Lane(Default);
    assert s'.queues.Lane(Low) == s.queues.Lane(Low);
  }

  lemma QuietGrounds(cfg: Config, s: System, w: WorkerId, act: WorkerAct, id: JobId)
    requires WorkEnabled(cfg, s, w, act) && !WritesRow(act) && !act.Succession? && GroundedAt(s, id)
    requires !act.ReserveFrom? && !act.BlockOn? && !act.Announce?
    ensures GroundedAt(Work1(cfg, s, w, act), id)
  {
    QuietWorkKeepsRows(cfg, s, w, act);
    WorkMovesOneProcess(cfg, s, w, act);
    WorkKeepsLanes(cfg, s, w, act);
    WorkKeepsSchedule(cfg, s, w, act);
    QuietWorkKeepsJob(cfg, s, w, act);
    QuietStaysGrounded(s, Work1(cfg, s, w, act), w, id);
  }

  lemma WorkGrounds(cfg: Config, s: System, w: WorkerId, act: WorkerAct, id: JobId)
    requires WorkEnabled(cfg, s, w, act) && Grounded(s)
    ensures GroundedAt(Work1(cfg, s, w, act), id)
  {
    assert GroundedAt(s, id);
    if WritesRow(act) {
      OutcomeGrounds(cfg, s, w, act, id);
    } else if act.Succession? {
      SuccessionGrounds(cfg, s, w, act, id);
    } else if act.ReserveFrom? || act.BlockOn? {
      FetchGrounds(cfg, s, w, act, id);
    } else if act.Announce? {
      AnnounceGrounds(cfg, s, w, act, id);
    } else {
      QuietGrounds(cfg, s, w, act, id);
    }
  }

  lemma PushTakesFromHands(s: System, route: Route, x: JobId, id: JobId)
    requires x in s.hands.On(route) && x != id
    ensures PushStep(s, route, x).hands.Count(id) == s.hands.Count(id)
  {
    TakeCounts(s.hands, route, x, id);
    PutCounts(s.hands.Take(route, x), GiveBack, multiset{x}, id);
  }

  lemma PushQueuesNoOther(s: System, route: Route, x: JobId, id: JobId)
    requires x != id && Queued(PushStep(s, route, x).queues, id)
    ensures Queued(s.queues, id)
  {}

  lemma PushGrounds(s: System, route: Route, x: JobId, id: JobId)
    requires x in s.hands.On(route) && Grounded(s)
    ensures GroundedAt(PushStep(s, route, x), id)
  {
    assert GroundedAt(s, id) && GroundedAt(s, x);
    if id !in s.tables.jobs {
      assert x != id;
      PushTakesFromHands(s, route, x, id);
      if Queued(PushStep(s, route, x).queues, id) {
        PushQueuesNoOther(s, route, x, id);
      }
    }
  }

  lemma DaemonGrounds(cfg: Config, s: System, act: DaemonAct, id: JobId)
    requires DaemonEnabled(s, act) && Grounded(s)
    ensures GroundedAt(Daemon1(cfg, s, act), id)
  {
    assert GroundedAt(s, id);
    match act
    case Push(route, x) => PushGrounds(s, route, x, id);
    case PromoteDue => PromoteKeeps(s.queues, s.now, id);
    case _ =>
  }

  /** Requests other than submissions create no row and no reference, except the push of a replayed job. */
  lemma SweptGrounds(s: System, s': System, id: JobId)
    requires GroundedAt(s, id) && s'.procs == s.procs && s'.hands == s.hands && s'.tables.letters == s.tables.letters
    requires s'.tables == s.tables || exists x :: s'.tables == CancelJob(s.tables, x)
    requires Queued(s'.queues, id) ==> Queued(s.queues, id)
    ensures GroundedAt(s', id)
  {}

  lemma RemoveGrounds(s: System, s': System, place: Place, x: JobId, id: JobId)
    requires GroundedAt(s, id) && s' == s.(queues := Sweep(s.queues, place, x), removals := s'.removals)
    ensures GroundedAt(s', id)
  {
    if x != id {
      SweepKeeps(s.queues, place, x, id);
    } else if place.Waiting? {
      RemoveAllKeeps(s.queues.Lane(place.tier), x, id);
    }
    SweptGrounds(s, s', id);
  }

  lemma CancelGrounds(s: System, x: JobId, id: JobId)
    requires GroundedAt(s, id)
    ensures GroundedAt(s.(tables := CancelJob(s.tables, x), queues := SweepAll(s.queues, x)), id)
  {
    SweepAllKeeps(s.queues, x, id);
    SweptGrounds(s, s.(tables := CancelJob(s.tables, x), queues := SweepAll(s.queues, x)), id);
  }

  lemma ReplayGrounds(s: System, letter: LetterId, id: JobId)
    requires letter in s.tables.letters && Grounded(s)
    ensures GroundedAt(ReplayStep(s, letter), id)
  {
    assert GroundedAt(s, id) && GroundedAt(s, s.tables.letters[letter].jobId);
  }

  lemma SubmitGrounds(cfg: Config, s: System, act: ClientAct, id: JobId)
    requires ClientEnabled(cfg, s, act) && act.Submit? && GroundedAt(s, id)
    ensures GroundedAt(Client1(cfg, s, act), id)
  {}

  lemma ClientGrounds(cfg: Config, s: System, act: ClientAct, id: JobId)
    requires ClientEnabled(cfg, s, act) && Grounded(s)
    ensures GroundedAt(Client1(cfg, s, act), id)
  {
    assert GroundedAt(s, id);
    match act
    case Submit(_, _, _) => SubmitGrounds(cfg, s, act, id);
    case Cancel(x) => CancelGrounds(s, x, id);
    case CancelRow(x) => SweptGrounds(s, Client1(cfg, s, act), id);
    case Remove(x, place) => RemoveGrounds(s, Client1(cfg, s, act), place, x, id);
    case Replay(letter) => ReplayGrounds(s, letter, id);
  }

  lemma EnvGrounds(s: System, act: EnvAct, id: JobId)
    requires EnvEnabled(s, act) && GroundedAt(s, id)
    ensures GroundedAt(Env1(s, act), id)
  {}

  lemma StepGroundsAt(cfg: Config, s: System, step: Step, id: JobId)
    requires Enabled(cfg, s, step) && Grounded(s)
    ensures GroundedAt(Apply(cfg, s, step), id)
  {
    assert GroundedAt(s, id);
    match step
    case Work(w, act) => WorkGrounds(cfg, s, w, act, id);
    case Daemon(act) => DaemonGrounds(cfg, s, act, id);
    case Client(act) => ClientGrounds(cfg, s, act, id);
    case Env(act) => EnvGrounds(s, act, id);
  }

  lemma StepGrounds(cfg: Config, s: System, step: Step)
    requires Enabled(cfg, s, step) && Grounded(s)
    ensures Grounded(Apply(cfg, s, step))
  {
    forall id ensures GroundedAt(Apply(cfg, s, step), id) {
      StepGroundsAt(cfg, s, step, id);
    }
  }

  lemma {:induction false} AlwaysGrounded(cfg: Config, ss: seq<System>, steps: seq<Step>, n: nat)
    requires Run(cfg, ss, steps) && Initial(ss[0]) && n < |ss|
    ensures Grounded(ss[n])
  {
    if n > 0 {
      AlwaysGrounded(cfg, ss, steps, n - 1);
      StepGrounds(cfg, ss[n - 1], steps[n - 1]);
    }
  }
}
