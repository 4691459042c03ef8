/** A delayed job never starts early, whatever is duplicated, resynchronised or lost along the way. */
module Punctuality {
  import opened Domain
  import opened Tables
  import opened Queues
  import opened Protocol
  import opened Custody
  import opened Grounding
  import opened Frames

  predicate DueRow(s: System, id: JobId)
    requires id in s.tables.jobs
  {
    s.tables.jobs[id].scheduledFor.Some? ==> s.tables.jobs[id].scheduledFor.value <= s.now
  }

  /** The scheduled set may only show the row's own time. */
  ghost predicate OnItsDate(s: System, id: JobId)
    requires id in s.tables.jobs
  {
    && (id in s.queues.scheduled ==> s.tables.jobs[id].scheduledFor == Some(s.queues.scheduled[id]))
    && (s.hands.onCalendar[id] > 0 ==> s.tables.jobs[id].scheduledFor.Some?)
    && (forall w :: w in s.procs && s.procs[w].phase.Announcing? && s.procs[w].phase.next == id ==>
        s.tables.jobs[id].scheduledFor.Some?)
  }

  /** Only the scheduled set, a pending ZADD or a cancellation has seen the job. */
  ghost predicate Untouched(s: System, id: JobId)
    requires id in s.tables.jobs
  {
    && (s.tables.jobs[id].status == Pending || s.tables.jobs[id].status == Failed)
    && id !in s.queues.high && id !in s.queues.normal && id !in s.queues.low
    && s.hands.byPriority[id] == 0 && s.hands.toDefault[id] == 0 && s.hands.unprocess[id] == 0
        && s.hands.giveBack[id] == 0
    && (forall w :: w in s.procs && Concerns(s.procs[w].phase, id) ==>
          s.procs[w].phase.Announcing? && s.procs[w].phase.id != id)
    && (forall l :: l in s.tables.letters ==> s.tables.letters[l].jobId != id)
  }

  ghost predicate PunctualAt(s: System, id: JobId) {
    id in s.tables.jobs ==> OnItsDate(s, id) && (DueRow(s, id) || Untouched(s, id))
  }

  // ---- Worker steps ----

  lemma AnnouncesOnDate(cfg: Config, s: System, w: WorkerId, act: WorkerAct, id: JobId)
    requires WorkEnabled(cfg, s, w, act) && (act.Succession? ==> act.next != id)
    requires var p := Work1(cfg, s, w, act).procs[w].phase; p.Announcing? && p.next == id
    ensures s.procs[w].phase == Work1(cfg, s, w, act).procs[w].phase
  {}

  lemma AnnouncedOnDate(cfg: Config, s: System, w: WorkerId, act: WorkerAct, id: JobId)
    requires WorkEnabled(cfg, s, w, act) && id in s.tables.jobs && OnItsDate(s, id)
    ensures var q := Work1(cfg, s, w, act).queues;
            id in q.scheduled ==> s.tables.jobs[id].scheduledFor == Some(q.scheduled[id])
  {}

  lemma WorkOnDate(cfg: Config, s: System, w: WorkerId, act: WorkerAct, id: JobId)
    requires WorkEnabled(cfg, s, w, act) && id in s.tables.jobs && OnItsDate(s, id)
    requires act.Succession? ==> act.next != id
    ensures id in Work1(cfg, s, w, act).tables.jobs && OnItsDate(Work1(cfg, s, w, act), id)
  {
    var s' := Work1(cfg, s, w, act);
    WorkPersists(cfg, s, w, act, id);
    WorkMovesOneProcess(cfg, s, w, act);
    AnnouncedOnDate(cfg, s, w, act, id);
    if s'.procs[w].phase.Announcing? && s'.procs[w].phase.next == id {
      AnnouncesOnDate(cfg, s, w, act, id);
    }
  }

  lemma PopUntouched(cfg: Config, s: System, w: WorkerId, act: WorkerAct, id: JobId)
    requires WorkEnabled(cfg, s, w, act) && (act.ReserveFrom? || act.BlockOn?)
    requires id in s.tables.jobs && Untouched(s, id)
    ensures Untouched(Work1(cfg, s, w, act), id)
  {
    PopKeeps(s.queues.Lane(act.tier), id);
  }

  /** Steps of other jobs' processes, seen from this job. */
  predicate Elsewhere(s: System, s': System, w: WorkerId, id: JobId)
    requires id in s.tables.jobs
  {
    && id in s'.tables.jobs && s'.tables.jobs[id] == s.tables.jobs[id]
    && s'.queues == s.queues && s'.hands == s.hands
    && w in s.procs && w in s'.procs
    && s'.procs == s.procs[w := s'.procs[w]] && !Concerns(s'.procs[w].phase, id)
  }

  lemma ElsewhereUntouched(s: System, s': System, w: WorkerId, id: JobId)
    requires id in s.tables.jobs && Untouched(s, id) && Elsewhere(s, s', w, id)
    requires forall l :: l in s'.tables.letters ==>
      (l in s.tables.letters && s'.tables.letters[l] == s.tables.letters[l]) || s'.tables.letters[l].jobId != id
    ensures Untouched(s', id)
  {}

  lemma OutcomeUntouched(cfg: Config, s: System, w: WorkerId, act: WorkerAct, id: JobId)
    requires WorkEnabled(cfg, s, w, act) && WritesRow(act)
    requires id in s.tables.jobs && Untouched(s, id)
    ensures id in Work1(cfg, s, w, act).tables.jobs && Untouched(Work1(cfg, s, w, act), id)
  {
    assert Concerns(s.procs[w].phase, s.procs[w].phase.id);
    WriteLetters(cfg, s, w, act);
    WorkMovesOneProcess(cfg, s, w, act);
    WriteKeepsOthers(cfg, s, w, act, id);
    WriteKeepsPhaseId(cfg, s, w, act);
    ElsewhereUntouched(s, Work1(cfg, s, w, act), w, id);
  }

  lemma SuccessionUntouched(cfg: Config, s: System, w: WorkerId, act: WorkerAct, id: JobId)
    requires WorkEnabled(cfg, s, w, act) && act.Succession?
    requires id in s.tables.jobs && Untouched(s, id)
    ensures id in Work1(cfg, s, w, act).tables.jobs && Untouched(Work1(cfg, s, w, act), id)
  {
    assert Concerns(s.procs[w].phase, s.procs[w].phase.id);
    ElsewhereUntouched(s, Work1(cfg, s, w, act), w, id);
  }

  lemma QuietKeepsUntouched(s: System, s': System, w: WorkerId, id: JobId)
    requires id in s.tables.jobs && Untouched(s, id) && s'.tables.jobs == s.tables.jobs
    requires s'.tables.letters == s.tables.letters && s'.hands == s.hands
    requires forall t: Tier :: s'.queues.Lane(t) == s.queues.Lane(t)
    requires w in s'.procs && s'.procs == s.procs[w := s'.procs[w]]
    requires var phase := s'.procs[w].phase;
             || phase.Idle? || (w in s.procs && phase == s.procs[w].phase)
             || (w in s.procs && !s.procs[w].phase.Idle? && !phase.Announcing? && phase.id == s.procs[w].phase.id)
    ensures Untouched(s', id)
  {
    assert forall t: Tier :: id in s'.queues.Lane(t) <==> id in s.queues.Lane(t);
    assert id !in s'.queues.Lane(High) && id !in s'.queues.Lane(Default) && id !in s'.queues.Lane(Low);
  }

  lemma QuietUntouched(cfg: Config, s: System, w: WorkerId, act: WorkerAct, id: JobId)
    requires WorkEnabled(cfg, s, w, act) && id in s.tables.jobs && Untouched(s, id)
    requires !act.ReserveFrom? && !act.BlockOn? && !WritesRow(act) && !act.Succession?
    ensures Work1(cfg, s, w, act).tables.jobs == s.tables.jobs && Untouched(Work1(cfg, s, w, act), id)
  {
    QuietWorkKeepsRows(cfg, s, w, act);
    WorkMovesOneProcess(cfg, s, w, act);
    WorkKeepsLanes(cfg, s, w, act);
    QuietWorkKeepsJob(cfg, s, w, act);
    QuietKeepsUntouched(s, Work1(cfg, s, w, act), w, id);
  }

  lemma WorkUntouched(cfg: Config, s: System, w: WorkerId, act: WorkerAct, id: JobId)
    requires WorkEnabled(cfg, s, w, act) && id in s.tables.jobs && Untouched(s, id)
    ensures id in Work1(cfg, s, w, act).tables.jobs && Untouched(Work1(cfg, s, w, act), id)
  {
    if act.ReserveFrom? || act.BlockOn? {
      PopUntouched(cfg, s, w, act, id);
    } else if WritesRow(act) {
      OutcomeUntouched(cfg, s, w, act, id);
    } else if act.Succession? {
      SuccessionUntouched(cfg, s, w, act, id);
    } else {
      QuietUntouched(cfg, s, w, act, id);
    }
  }

  lemma WorkPunctual(cfg: Config, s: System, w: WorkerId, act: WorkerAct, id: JobId)
    requires WorkEnabled(cfg, s, w, act) && GroundedAt(s, id) && PunctualAt(s, id)
    ensures PunctualAt(Work1(cfg, s, w, act), id)
  {
    if id in s.tables.jobs {
      WorkOnDate(cfg, s, w, act, id);
      WorkPersists(cfg, s, w, act, id);
      if !DueRow(s, id) {
        WorkUntouched(cfg, s, w, act, id);
      }
    }
  }

  // ---- Reaper, scheduler, clients ----

  lemma PushQueuesOthers(s: System, route: Route, x: JobId, id: JobId)
    requires x != id
    ensures var q := PushStep(s, route, x).queues;
            && (id in q.high <==> id in s.queues.high)
            && (id in q.normal <==> id in s.queues.normal)
            && (id in q.low <==> id in s.queues.low)
            && (id in q.scheduled <==> id in s.queues.scheduled)
            && (id in q.scheduled ==> q.scheduled[id] == s.queues.scheduled[id])
  {}

  lemma PushHandsOthers(s: System, route: Route, x: JobId, id: JobId)
    requires x != id
    ensures SameHands(s.hands, PushStep(s, route, x).hands, id)
  {
    TakeLeavesOthers(s.hands, route, x, id);
    TakeLeavesOthers(s.hands.Take(route, x), GiveBack, x, id);
  }

  /** What the predicate looks at is the same for this job. */
  lemma SameView(s: System, s': System, id: JobId)
    requires PunctualAt(s, id) && s'.tables == s.tables && s'.procs == s.procs && s'.now == s.now
    requires SameHands(s.hands, s'.hands, id)
    requires id in s'.queues.high <==> id in s.queues.high
    requires id in s'.queues.normal <==> id in s.queues.normal
    requires id in s'.queues.low <==> id in s.queues.low
    requires id in s'.queues.scheduled <==> id in s.queues.scheduled
    requires id in s'.queues.scheduled ==> s'.queues.scheduled[id] == s.queues.scheduled[id]
    ensures PunctualAt(s', id)
  {}

  lemma OtherPushPunctual(s: System, route: Route, x: JobId, id: JobId)
    requires PunctualAt(s, id) && x != id
    ensures PunctualAt(PushStep(s, route, x), id)
  {
    PushQueuesOthers(s, route, x, id);
    PushHandsOthers(s, route, x, id);
    SameView(s, PushStep(s, route, x), id);
  }

  /** A pending push that is not a ZADD shows that the job's time has come. */
  lemma PushedIsDue(s: System, route: Route, id: JobId)
    requires id in s.hands.On(route) && route != OnCalendar && PunctualAt(s, id) && id in s.tables.jobs
    ensures DueRow(s, id)
  {}

  lemma PushCalendar(s: System, route: Route, id: JobId)
    ensures var q := PushStep(s, route, id).queues;
            q.scheduled == if route == OnCalendar then s.queues.scheduled[id := ScoreOf(s, id)] else s.queues.scheduled
  {}

  lemma TakeFromCalendar(h: Hands, route: Route, id: JobId)
    ensures h.Take(route, id).onCalendar[id] <= h.onCalendar[id]
    ensures h.Take(route, id).Put(GiveBack, multiset{id}).onCalendar[id] <= h.onCalendar[id]
  {}

  lemma PushCalendarHand(s: System, route: Route, id: JobId)
    ensures PushStep(s, route, id).hands.onCalendar[id] <= s.hands.onCalendar[id]
  {
    TakeFromCalendar(s.hands, route, id);
  }

  lemma OwnPushOnDate(s: System, route: Route, id: JobId)
    requires id in s.hands.On(route) && id in s.tables.jobs && OnItsDate(s, id)
    ensures OnItsDate(PushStep(s, route, id), id)
  {
    PushCalendar(s, route, id);
    PushCalendarHand(s, route, id);
    assert PushStep(s, route, id).tables == s.tables && PushStep(s, route, id).procs == s.procs;
  }

  lemma CalendarPushUntouched(s: System, id: JobId)
    requires id in s.hands.On(OnCalendar) && id in s.tables.jobs && Untouched(s, id)
    ensures Untouched(PushStep(s, OnCalendar, id), id)
  {
    assert PushStep(s, OnCalendar, id).queues == ZAdd(s.queues, id, ScoreOf(s, id));
  }

  lemma OwnPushPunctual(s: System, route: Route, id: JobId)
    requires id in s.hands.On(route) && PunctualAt(s, id)
    ensures PunctualAt(PushStep(s, route, id), id)
  {
    if id in s.tables.jobs {
      OwnPushOnDate(s, route, id);
      if route != OnCalendar {
        PushedIsDue(s, route, id);
      } else if !DueRow(s, id) {
        CalendarPushUntouched(s, id);
      }
    }
  }

  lemma PushPunctual(s: System, route: Route, x: JobId, id: JobId)
    requires x in s.hands.On(route) && PunctualAt(s, id)
    ensures PunctualAt(PushStep(s, route, x), id)
  {
    if x == id {
      OwnPushPunctual(s, route, id);
    } else {
      OtherPushPunctual(s, route, x, id);
    }
  }

  lemma PromotePunctual(s: System, id: JobId)
    requires PunctualAt(s, id)
    ensures PunctualAt(s.(queues := Promote(s.queues, s.now)), id)
  {
    PromoteKeeps(s.queues, s.now, id);
  }

  /** Statements on the tables add pushes only for rows that have been seen outside the scheduled set. */
  lemma ReclaimView(cfg: Config, s: System, via: Reclaimer, id: JobId)
    requires id in s.tables.jobs && s.tables.jobs[id].status != Running
    ensures var s' := ReclaimStep(cfg, s, via);
            s'.tables.jobs[id] == s.tables.jobs[id] && SameHands(s.hands, s'.hands, id)
  {}

  lemma PromoteRetriesView(cfg: Config, s: System, via: Reclaimer, id: JobId)
    requires id in s.tables.jobs && s.tables.jobs[id].status != Retrying
    ensures var s' := Daemon1(cfg, s, PromoteRetries(via));
            s'.tables.jobs[id] == s.tables.jobs[id] && SameHands(s.hands, s'.hands, id)
  {}

  lemma RowsKeepDates(cfg: Config, s: System, act: DaemonAct, id: JobId)
    requires DaemonEnabled(s, act) && (act.Reclaim? || act.PromoteRetries?) && id in s.tables.jobs && OnItsDate(s, id)
    ensures id in Daemon1(cfg, s, act).tables.jobs && OnItsDate(Daemon1(cfg, s, act), id)
  {
    DaemonKeepsProcs(cfg, s, act);
    DaemonKeepsQueues(cfg, s, act);
    DaemonPersists(cfg, s, act, id);
    assert Daemon1(cfg, s, act).hands.onCalendar == s.hands.onCalendar;
  }

  /** Statements on the tables add pushes only for rows that have been seen outside the scheduled set. */
  lemma RowsPunctual(cfg: Config, s: System, act: DaemonAct, id: JobId)
    requires DaemonEnabled(s, act) && (act.Reclaim? || act.PromoteRetries?) && PunctualAt(s, id)
    ensures PunctualAt(Daemon1(cfg, s, act), id)
  {
    DaemonKeepsProcs(cfg, s, act);
    if id in s.tables.jobs {
      RowsKeepDates(cfg, s, act, id);
      if DueRow(s, id) {
        DaemonPersists(cfg, s, act, id);
      } else {
        DaemonKeepsQueues(cfg, s, act);
        if act.Reclaim? {
          ReclaimView(cfg, s, act.via, id);
        } else {
          PromoteRetriesView(cfg, s, act.via, id);
        }
      }
    }
  }

  lemma ResyncPunctual(cfg: Config, s: System, id: JobId)
    requires PunctualAt(s, id)
    ensures PunctualAt(Daemon1(cfg, s, Resync), id)
  {}

  lemma DaemonPunctual(cfg: Config, s: System, act: DaemonAct, id: JobId)
    requires DaemonEnabled(s, act) && PunctualAt(s, id)
    ensures PunctualAt(Daemon1(cfg, s, act), id)
  {
    match act
    case Expire => assert Daemon1(cfg, s, act).tables.jobs == s.tables.jobs;
    case Reclaim(_) => RowsPunctual(cfg, s, act, id);
    case PromoteRetries(_) => RowsPunctual(cfg, s, act, id);
    case PromoteDue => PromotePunctual(s, id);
    case Resync => ResyncPunctual(cfg, s, id);
    case Push(route, x) => PushPunctual(s, route, x, id);
  }

  lemma SweptPunctual(s: System, s': System, id: JobId)
    requires PunctualAt(s, id) && s' == s.(tables := s'.tables, queues := s'.queues, removals := s'.removals)
    requires s'.tables == s.tables || exists x :: s'.tables == CancelJob(s.tables, x)
    requires id in s'.queues.high ==> id in s.queues.high
    requires id in s'.queues.normal ==> id in s.queues.normal
    requires id in s'.queues.low ==> id in s.queues.low
    requires id in s'.queues.scheduled ==> id in s.queues.scheduled && s'.queues.scheduled[id] == s.queues.scheduled[id]
    ensures PunctualAt(s', id)
  {}

  lemma SweepPunctual(s: System, s': System, place: Place, x: JobId, id: JobId)
    requires PunctualAt(s, id) && s' == s.(queues := Sweep(s.queues, place, x), removals := s'.removals)
    ensures PunctualAt(s', id)
  {
    if place.Waiting? {
      RemoveAllKeeps(s.queues.Lane(place.tier), x, id);
    }
    SweptPunctual(s, s', id);
  }

  lemma CancelPunctual(s: System, x: JobId, id: JobId)
    requires PunctualAt(s, id)
    ensures PunctualAt(s.(tables := CancelJob(s.tables, x), queues := SweepAll(s.queues, x)), id)
  {
    RemoveAllKeeps(s.queues.normal, x, id);
    RemoveAllKeeps(s.queues.high, x, id);
    RemoveAllKeeps(s.queues.low, x, id);
    SweptPunctual(s, s.(tables := CancelJob(s.tables, x), queues := SweepAll(s.queues, x)), id);
  }

  lemma ReplayPunctual(s: System, letter: LetterId, id: JobId)
    requires letter in s.tables.letters && PunctualAt(s, id)
    ensures PunctualAt(ReplayStep(s, letter), id)
  {
    var job := s.tables.letters[letter].jobId;
    if id in s.tables.jobs && job == id {
      assert DueRow(s, id);
    }
  }

  lemma SubmitPunctual(cfg: Config, s: System, act: ClientAct, id: JobId)
    requires ClientEnabled(cfg, s, act) && act.Submit? && GroundedAt(s, id) && PunctualAt(s, id)
    ensures PunctualAt(Client1(cfg, s, act), id)
  {}

  lemma ClientPunctual(cfg: Config, s: System, act: ClientAct, id: JobId)
    requires ClientEnabled(cfg, s, act) && GroundedAt(s, id) && PunctualAt(s, id)
    ensures PunctualAt(Client1(cfg, s, act), id)
  {
    if act.Replay? {
      ReplayPunctual(s, act.letter, id);
    } else if act.Remove? {
      SweepPunctual(s, Client1(cfg, s, act), act.place, act.id, id);
    } else if act.Cancel? {
      CancelPunctual(s, act.id, id);
    } else if act.CancelRow? {
      SweptPunctual(s, Client1(cfg, s, act), id);
    } else {
      SubmitPunctual(cfg, s, act, id);
    }
  }

  lemma EnvPunctual(s: System, act: EnvAct, id: JobId)
    requires EnvEnabled(s, act) && PunctualAt(s, id)
    ensures PunctualAt(Env1(s, act), id)
  {}

  lemma StepPunctual(cfg: Config, s: System, step: Step, id: JobId)
    requires Enabled(cfg, s, step) && GroundedAt(s, id) && PunctualAt(s, id)
    ensures PunctualAt(Apply(cfg, s, step), id)
  {
    match step
    case Work(w, act) => WorkPunctual(cfg, s, w, act, id);
    case Daemon(act) => DaemonPunctual(cfg, s, act, id);
    case Client(act) => ClientPunctual(cfg, s, act, id);
    case Env(act) => EnvPunctual(s, act, id);
  }

  // ---- Whole runs ----

  lemma {:induction false} AlwaysPunctual(cfg: Config, ss: seq<System>, steps: seq<Step>, n: nat, id: JobId)
    requires Run(cfg, ss, steps) && Initial(ss[0]) && n < |ss|
    ensures PunctualAt(ss[n], id)
  {
    if n > 0 {
      AlwaysPunctual(cfg, ss, steps, n - 1, id);
      AlwaysGrounded(cfg, ss, steps, n - 1);
      StepPunctual(cfg, ss[n - 1], steps[n - 1], id);
    }
  }

  /** Whoever sees the id outside the scheduled set, sees it when its time has come; so does every lock. */
  lemma NeverEarly(cfg: Config, ss: seq<System>, steps: seq<Step>, n: nat, id: JobId)
    requires Run(cfg, ss, steps) && Initial(ss[0]) && n < |ss| && id in ss[n].tables.jobs
    requires id in ss[n].queues.high || id in ss[n].queues.normal || id in ss[n].queues.low
             || ss[n].tables.jobs[id].status == Running
             || exists w :: w in ss[n].procs && Concerns(ss[n].procs[w].phase, id) && !ss[n].procs[w].phase.Announcing?
    ensures DueRow(ss[n], id)
  {
    AlwaysPunctual(cfg, ss, steps, n, id);
  }
}
