/**
 Redis agrees exactly with Postgres: in a timely run a PENDING job has one reference, over the three lists,
 the scheduled set, the pending pushes and the workers about to lock it, and a job that cannot be locked has none.
 */
module References {
  import opened Domain
  import opened Tables
  import opened Queues
  import opened Protocol
  import opened Frames
  import opened Custody
  import opened Grounding
  import opened Ownership
  import opened Tallies

  function Listed(q: Queues, id: JobId): nat {
    Occurrences(q.high, id) + Occurrences(q.normal, id) + Occurrences(q.low, id) + if id in q.scheduled then 1 else 0
  }

  function CarryWeight(p: Proc, id: JobId): int {
    if Carries(p.phase, id) then 1 else 0
  }

  ghost function Carriers(procs: map<WorkerId, Proc>, id: JobId): int {
    Tally(procs, p => CarryWeight(p, id))
  }

  ghost function RefCount(s: System, id: JobId): int {
    Listed(s.queues, id) + s.hands.Count(id) + Carriers(s.procs, id)
  }

  ghost predicate ExactAt(s: System, id: JobId) {
    if id !in s.tables.jobs then RefCount(s, id) == 0
    else match s.tables.jobs[id].status
         case Pending => RefCount(s, id) == 1
         case Failed => 0 <= RefCount(s, id) <= 1
         case _ => RefCount(s, id) == 0
  }

  ghost predicate Exact(s: System) {
    forall id :: ExactAt(s, id)
  }

  /** Steps of runs without resynchronisation, lost pushes, or cancellations whose removals come later. */
  predicate Loyal(s: System, step: Step) {
    && Survivable(s, step)
    && (step.Daemon? ==> !step.daemon.Resync?)
    && (step.Client? ==> !step.client.CancelRow?)
  }

  // ---- How single operations change the count ----

  lemma CarriersUpdate(procs: map<WorkerId, Proc>, w: WorkerId, p: Proc, id: JobId)
    ensures Carriers(procs[w := p], id) == Carriers(procs, id) - (if w in procs then CarryWeight(procs[w],
        id) else 0) + CarryWeight(p, id)
  {
    TallyUpdate(procs, w, p, (q: Proc) => CarryWeight(q, id));
  }

  lemma CarriersBound(procs: map<WorkerId, Proc>, id: JobId)
    ensures Carriers(procs, id) >= 0
    ensures forall w :: w in procs ==> CarryWeight(procs[w], id) <= Carriers(procs, id)
  {
    TallyBounds(procs, (q: Proc) => CarryWeight(q, id));
  }

  lemma LastCounts(lane: seq<JobId>, id: JobId)
    requires lane != []
    ensures Occurrences(lane, id) == Occurrences(DropLast(lane), id) + if id == Last(lane) then 1 else 0
  {
    assert lane == DropLast(lane) + [Last(lane)];
  }

  lemma PopCounts(q: Queues, tier: Tier, id: JobId)
    requires q.Lane(tier) != []
    ensures Listed(Pop(q, tier), id) == Listed(q, id) - if id == Last(q.Lane(tier)) then 1 else 0
  {
    WithCounts(q, tier, DropLast(q.Lane(tier)), id);
    LastCounts(q.Lane(tier), id);
  }

  lemma PromoteCounts(q: Queues, now: Time, id: JobId)
    ensures Listed(Promote(q, now), id) == Listed(q, id)
  {
    var due := DueOrder(q.scheduled, now);
    OrderedOnce(q.scheduled, due, id);
    assert Occurrences(Reverse(due) + q.normal, id) == Occurrences(due, id) + Occurrences(q.normal, id);
  }

  lemma {:induction false} OrderedOnce(scheduled: map<JobId, Time>, ids: seq<JobId>, id: JobId)
    requires Ascending(scheduled, ids)
    ensures Occurrences(ids, id) == if id in ids then 1 else 0
  {
    if ids != [] {
      assert ids == [ids[0]] + ids[1..];
      OrderedOnce(scheduled, ids[1..], id);
      forall k | 0 <= k < |ids[1..]| ensures ids[1..][k] != ids[0] {
        assert Before(scheduled, ids[0], ids[k + 1]);
      }
    }
  }

  lemma SweepAllCounts(q: Queues, x: JobId, id: JobId)
    ensures Listed(SweepAll(q, x), id) == if id == x then 0 else Listed(q, id)
  {}

  // ---- Worker steps ----

  lemma PopExact(s: System, s': System, w: WorkerId, tier: Tier, phase: Phase, id: JobId)
    requires Alert(s, w) && s.procs[w].phase.Idle? && s.queues.Lane(tier) != [] && ExactAt(s, id)
    requires phase == Carrying(Last(s.queues.Lane(tier))) || phase == Reserved(Last(s.queues.Lane(tier)))
    requires s' == s.(queues := s'.queues, procs := To(s, w, phase))
    requires Listed(s'.queues, id) == Listed(Pop(s.queues, tier), id)
    ensures ExactAt(s', id)
  {
    PopCounts(s.queues, tier, id);
    CarriersUpdate(s.procs, w, s'.procs[w], id);
  }

  lemma FetchExact(cfg: Config, s: System, w: WorkerId, act: WorkerAct, id: JobId)
    requires WorkEnabled(cfg, s, w, act) && (act.ReserveFrom? || act.BlockOn? || act.StashIt?) && ExactAt(s, id)
    ensures ExactAt(Work1(cfg, s, w, act), id)
  {
    var s' := Work1(cfg, s, w, act);
    if act.StashIt? {
      CarriersUpdate(s.procs, w, s'.procs[w], id);
    } else {
      PopExact(s, s', w, act.tier, s'.procs[w].phase, id);
    }
  }

  lemma LockExact(s: System, w: WorkerId, job: JobId, id: JobId)
    requires Alert(s, w) && s.procs[w].phase == Reserved(job) && ExactAt(s, id)
    ensures ExactAt(LockStep(s, w, job), id)
  {
    var s' := LockStep(s, w, job);
    CarriersUpdate(s.procs, w, s'.procs[w], id);
    CarriersBound(s.procs, id);
    assert CarryWeight(s.procs[w], job) == 1;
  }

  lemma OutcomeCarriesNothing(cfg: Config, s: System, w: WorkerId, act: WorkerAct, id: JobId)
    requires WorkEnabled(cfg, s, w, act) && (act.Succeed? || act.Fail?)
    ensures var s' := Work1(cfg, s, w, act);
            && CarryWeight(s.procs[w], id) == CarryWeight(s'.procs[w], id) == 0 && s'.queues == s.queues
            && (s.procs[w].phase.id == id && id in s.tables.jobs ==>
                  id in s'.tables.jobs
                  && (s'.tables.jobs[id].status == Success || s'.tables.jobs[id].status == Retrying
                      || s'.tables.jobs[id].status == DeadLetter))
  {}

  lemma SameReferenceCount(s: System, s': System, w: WorkerId, id: JobId)
    requires w in s.procs && w in s'.procs && s'.procs == s.procs[w := s'.procs[w]] && s'.hands == s.hands
    requires Listed(s'.queues, id) + CarryWeight(s'.procs[w], id) == Listed(s.queues, id) + CarryWeight(s.procs[w], id)
    ensures RefCount(s', id) == RefCount(s, id)
  {
    CarriersUpdate(s.procs, w, s'.procs[w], id);
  }

  lemma OutcomeExact(cfg: Config, s: System, w: WorkerId, act: WorkerAct, id: JobId)
    requires WorkEnabled(cfg, s, w, act) && (act.Succeed? || act.Fail?) && ExactAt(s, id) && OwnedAt(s, id)
    ensures ExactAt(Work1(cfg, s, w, act), id)
  {
    var s' := Work1(cfg, s, w, act);
    OutcomeCarriesNothing(cfg, s, w, act, id);
    WorkMovesOneProcess(cfg, s, w, act);
    SameReferenceCount(s, s', w, id);
    if s.procs[w].phase.id == id {
      assert Owns(s, w, id);
    } else {
      WriteKeepsOthers(cfg, s, w, act, id);
    }
  }

  lemma SuccessionExact(cfg: Config, s: System, w: WorkerId, act: WorkerAct, id: JobId)
    requires WorkEnabled(cfg, s, w, act) && act.Succession? && ExactAt(s, id)
    ensures ExactAt(Work1(cfg, s, w, act), id)
  {
    CarriersUpdate(s.procs, w, Work1(cfg, s, w, act).procs[w], id);
  }

  lemma AnnounceExact(cfg: Config, s: System, w: WorkerId, id: JobId)
    requires WorkEnabled(cfg, s, w, Announce) && ExactAt(s, id)
    ensures ExactAt(Work1(cfg, s, w, Announce), id)
  {
    CarriersUpdate(s.procs, w, Work1(cfg, s, w, Announce).procs[w], id);
    CarriersBound(s.procs, id);
  }

  lemma IdleWorkKeepsLists(cfg: Config, s: System, w: WorkerId, act: WorkerAct, id: JobId)
    requires WorkEnabled(cfg, s, w, act) && (ChangesPresence(act) || act.SkipSuccession? || act.AckIt?)
    ensures Listed(Work1(cfg, s, w, act).queues, id) == Listed(s.queues, id)
  {}

  lemma PresenceKeepsPhase(cfg: Config, s: System, w: WorkerId, act: WorkerAct)
    requires WorkEnabled(cfg, s, w, act) && ChangesPresence(act)
    ensures Work1(cfg, s, w, act).procs[w].phase == if w in s.procs then s.procs[w].phase else Idle
  {}

  lemma IdleWorkKeepsReferences(cfg: Config, s: System, w: WorkerId, act: WorkerAct, id: JobId)
    requires WorkEnabled(cfg, s, w, act) && (ChangesPresence(act) || act.SkipSuccession? || act.AckIt?)
    ensures var s' := Work1(cfg, s, w, act);
            && Listed(s'.queues, id) == Listed(s.queues, id)
            && CarryWeight(s'.procs[w], id) == (if w in s.procs then CarryWeight(s.procs[w], id) else 0)
  {
    IdleWorkKeepsLists(cfg, s, w, act, id);
    if ChangesPresence(act) {
      PresenceKeepsPhase(cfg, s, w, act);
    }
  }

  lemma IdleWorkExact(cfg: Config, s: System, w: WorkerId, act: WorkerAct, id: JobId)
    requires WorkEnabled(cfg, s, w, act) && (ChangesPresence(act) || act.SkipSuccession? || act.AckIt?)
    requires ExactAt(s, id)
    ensures ExactAt(Work1(cfg, s, w, act), id)
  {
    IdleWorkKeepsReferences(cfg, s, w, act, id);
    QuietWorkKeepsRows(cfg, s, w, act);
    WorkMovesOneProcess(cfg, s, w, act);
    CarriersUpdate(s.procs, w, Work1(cfg, s, w, act).procs[w], id);
  }

  lemma WorkExact(cfg: Config, s: System, w: WorkerId, act: WorkerAct, id: JobId)
    requires WorkEnabled(cfg, s, w, act) && ExactAt(s, id) && OwnedAt(s, id)
    ensures ExactAt(Work1(cfg, s, w, act), id)
  {
    if act.ReserveFrom? || act.BlockOn? || act.StashIt? {
      FetchExact(cfg, s, w, act, id);
    } else if act.LockIt? {
      LockExact(s, w, s.procs[w].phase.id, id);
    } else if act.Succeed? || act.Fail? {
      OutcomeExact(cfg, s, w, act, id);
    } else if act.Succession? {
      SuccessionExact(cfg, s, w, act, id);
    } else if act.Announce? {
      AnnounceExact(cfg, s, w, id);
    } else {
      IdleWorkExact(cfg, s, w, act, id);
    }
  }

  // ---- Reaper, scheduler, clients ----

  lemma ReclaimExact(cfg: Config, s: System, via: Reclaimer, id: JobId)
    requires ExactAt(s, id)
    ensures ExactAt(ReclaimStep(cfg, s, via), id)
  {
    PutCounts(s.hands, if via == ByReaper then Unprocess else ByPriority, multiset(StaleJobs(s.tables,
        cfg.visibilityTimeout, s.now)), id);
  }

  lemma PromoteRetriesExact(cfg: Config, s: System, via: Reclaimer, id: JobId)
    requires ExactAt(s, id)
    ensures ExactAt(Daemon1(cfg, s, PromoteRetries(via)), id)
  {
    PutCounts(s.hands, if via == ByReaper then ToDefault else ByPriority, multiset(DueRetries(s.tables, s.now)), id);
  }

  lemma WithCounts(q: Queues, tier: Tier, lane: seq<JobId>, id: JobId)
    ensures Listed(q.With(tier, lane), id) == Listed(q, id) - Occurrences(q.Lane(tier), id) + Occurrences(lane, id)
  {}

  lemma LPushCounts(q: Queues, tier: Tier, x: JobId, id: JobId)
    ensures Listed(LPush(q, tier, x), id) == Listed(q, id) + if x == id then 1 else 0
    ensures Listed(RPush(q, tier, x), id) == Listed(q, id) + if x == id then 1 else 0
  {
    WithCounts(q, tier, [x] + q.Lane(tier), id);
    WithCounts(q, tier, q.Lane(tier) + [x], id);
  }

  lemma PushCounts(s: System, route: Route, x: JobId, id: JobId)
    requires x in s.hands.On(route)
    requires route == OnCalendar ==> x !in s.queues.scheduled
    ensures RefCount(PushStep(s, route, x), id) == RefCount(s, id)
  {
    assert PushStep(s, route, x).procs == s.procs;
    PushMovesOne(s, route, x, id);
  }

  lemma PushMovesOne(s: System, route: Route, x: JobId, id: JobId)
    requires x in s.hands.On(route)
    requires route == OnCalendar ==> x !in s.queues.scheduled
    ensures var s' := PushStep(s, route, x);
            Listed(s'.queues, id) + s'.hands.Count(id) == Listed(s.queues, id) + s.hands.Count(id)
  {
    TakeCounts(s.hands, route, x, id);
    if route == Unprocess {
      PutCounts(s.hands.Take(route, x), GiveBack, multiset{x}, id);
    } else if route != OnCalendar {
      LPushCounts(s.queues, if route == ByPriority then TierOf(SpecOf(s, x).priority) else Default, x, id);
    }
  }

  lemma PushExact(s: System, route: Route, x: JobId, id: JobId)
    requires x in s.hands.On(route) && ExactAt(s, id) && ExactAt(s, x)
    ensures ExactAt(PushStep(s, route, x), id)
  {
    CarriersBound(s.procs, x);
    PushCounts(s, route, x, id);
  }

  lemma DaemonExact(cfg: Config, s: System, act: DaemonAct, id: JobId)
    requires DaemonEnabled(s, act) && !act.Resync? && Exact(s)
    ensures ExactAt(Daemon1(cfg, s, act), id)
  {
    assert ExactAt(s, id);
    if act.Reclaim? {
      ReclaimExact(cfg, s, act.via, id);
    } else if act.PromoteRetries? {
      PromoteRetriesExact(cfg, s, act.via, id);
    } else if act.Push? {
      assert ExactAt(s, act.id);
      PushExact(s, act.route, act.id, id);
    } else if act.PromoteDue? {
      PromoteCounts(s.queues, s.now, id);
    }
  }

  lemma CancelExact(s: System, x: JobId, id: JobId)
    requires x in s.tables.jobs && ExactAt(s, id)
    ensures ExactAt(s.(tables := CancelJob(s.tables, x), queues := SweepAll(s.queues, x)), id)
  {
    CarriersBound(s.procs, id);
    SweepAllCounts(s.queues, x, id);
  }

  lemma ClientExact(cfg: Config, s: System, act: ClientAct, id: JobId)
    requires ClientEnabled(cfg, s, act) && !act.CancelRow? && !act.Remove? && ExactAt(s, id) && LettersAt(s, id)
    ensures ExactAt(Client1(cfg, s, act), id)
  {
    if act.Cancel? {
      CancelExact(s, act.id, id);
    } else if act.Submit? {
      PutCounts(s.hands, if act.scheduledFor.None? then ByPriority else OnCalendar, multiset{act.id}, id);
    } else {
      assert LetterFor(s, act.letter, s.tables.letters[act.letter].jobId);
      PutCounts(s.hands, ToDefault, multiset{s.tables.letters[act.letter].jobId}, id);
    }
  }

  lemma StepExact(cfg: Config, s: System, step: Step)
    requires Enabled(cfg, s, step) && Loyal(s, step) && Orderly(s) && Exact(s)
    ensures Exact(Apply(cfg, s, step))
  {
    forall id ensures ExactAt(Apply(cfg, s, step), id) {
      assert ExactAt(s, id) && OrderlyAt(s, id) && GroundedAt(s, id);
      match step
      case Work(w, act) => WorkExact(cfg, s, w, act, id);
      case Daemon(act) => DaemonExact(cfg, s, act, id);
      case Client(act) => ClientExact(cfg, s, act, id);
      case Env(act) =>
    }
  }

  // ---- Whole runs ----

  ghost predicate LoyalRun(cfg: Config, ss: seq<System>, steps: seq<Step>) {
    TimelyRun(cfg, ss, steps) && forall i {:trigger steps[i]} :: 0 <= i < |steps| ==> Loyal(ss[i], steps[i])
  }

  lemma {:induction false} AlwaysExact(cfg: Config, ss: seq<System>, steps: seq<Step>, n: nat)
    requires LoyalRun(cfg, ss, steps) && n < |ss|
    ensures Orderly(ss[n]) && Exact(ss[n])
  {
    AlwaysOrderly(cfg, ss, steps, n);
    if n > 0 {
      AlwaysExact(cfg, ss, steps, n - 1);
      StepExact(cfg, ss[n - 1], steps[n - 1]);
    } else {
      forall id ensures ExactAt(ss[0], id) {
        TallyZero(ss[0].procs, (p: Proc) => CarryWeight(p, id));
      }
    }
  }

  /** Cancelling a job that is not waiting leaves the lists and the scheduled set as they were. */
  lemma CancelOfBusyJobTouchesNothing(cfg: Config, ss: seq<System>, steps: seq<Step>, n: nat, id: JobId)
    requires LoyalRun(cfg, ss, steps) && n < |ss| && id in ss[n].tables.jobs
    requires var st := ss[n].tables.jobs[id].status; st != Pending && st != Failed
    ensures Apply(cfg, ss[n], Client(Cancel(id))) == ss[n]
  {
    var s := ss[n];
    AlwaysExact(cfg, ss, steps, n);
    assert ExactAt(s, id);
    CarriersBound(s.procs, id);
    assert s.queues.scheduled - {id} == s.queues.scheduled;
  }
}
