/**
 The system finishes. Every productive step uses up part of a potential that only crashes replenish, so a run
 without new work does a bounded amount of it; and while a job is unfinished, waiting always enables more.
 */
module Termination {
  import opened Domain
  import opened Tables
  import opened Queues
  import opened Protocol
  import opened Custody
  import opened Grounding
  import opened Attempts
  import opened Ownership
  import opened References
  import opened Lifecycle
  import opened Sums
  import opened Tallies

  // ---- The potential of one job ----

  predicate Orphaned(s: System, id: JobId) {
    && id in s.tables.jobs && s.tables.jobs[id].status == Running
    && s.tables.jobs[id].lockedBy.Some? && !Alert(s, s.tables.jobs[id].lockedBy.value)
  }

  function AtLeast(low: int, n: int): int {
    if n < low then low else n
  }

  /** Executions the job may still have: unless a live worker executes it now, it can always be locked once more. */
  function Fuel(s: System, id: JobId): int {
    if id !in s.tables.jobs || Final(s.tables.jobs[id].status) then 0
    else
      var row := s.tables.jobs[id];
      AtLeast(if row.status == Running && !Orphaned(s, id) then 0 else 1, row.spec.maxAttempts - row.attempts)
  }

  function StatusRank(s: System, id: JobId): nat {
    if id !in s.tables.jobs then 0
    else match s.tables.jobs[id].status
         case Running => 9
         case Retrying => 8
         case _ => 0
  }

  /** References get lighter on their way to a worker. */
  function Load(q: Queues, id: JobId): nat {
    5 * (Occurrences(q.high, id) + Occurrences(q.normal, id) + Occurrences(q.low,
        id)) + if id in q.scheduled then 6 else 0
  }

  function HandLoad(h: Hands, id: JobId): nat {
    6 * (h.byPriority[id] + h.toDefault[id] + h.giveBack[id]) + 7 * (h.unprocess[id] + h.onCalendar[id])
  }

  function Duty(phase: Phase, id: JobId): int {
    match phase
    case Idle => 0
    case Carrying(x) => if x == id then 4 else 0
    case Reserved(x) => if x == id then 3 else 0
    case Executing(x, _, _) => if x == id then 2 else 0
    case Finishing(x) => if x == id then 2 else 0
    case Announcing(x, next) => (if x == id then 2 else 0) + (if next == id then 7 else 0)
    case Settled(x) => if x == id then 1 else 0
  }

  ghost function Duties(procs: map<WorkerId, Proc>, id: JobId): int {
    Tally(procs, (p: Proc) => Duty(p.phase, id))
  }

  ghost function Rank(s: System, id: JobId): int {
    StatusRank(s, id) + Load(s.queues, id) + HandLoad(s.hands, id) + Duties(s.procs, id)
  }

  ghost function Potential(s: System, id: JobId): int {
    10 * Fuel(s, id) + Rank(s, id)
  }

  lemma DutiesUpdate(procs: map<WorkerId, Proc>, w: WorkerId, p: Proc, id: JobId)
    ensures Duties(procs[w := p], id) == Duties(procs, id) - (if w in procs then Duty(procs[w].phase,
        id) else 0) + Duty(p.phase, id)
  {
    TallyUpdate(procs, w, p, (q: Proc) => Duty(q.phase, id));
  }

  lemma DutiesNonnegative(procs: map<WorkerId, Proc>, id: JobId)
    ensures Duties(procs, id) >= 0
  {
    TallyBounds(procs, (q: Proc) => Duty(q.phase, id));
  }

  // ---- What the steps do to it ----

  /** No new work: no submission, no replay, no successor. */
  predicate Internal(step: Step) {
    && !(step.Client? && (step.client.Submit? || step.client.Replay?))
    && !(step.Work? && step.act.Succession?)
  }

  /** The step makes progress on this job. */
  ghost predicate Advances(cfg: Config, s: System, step: Step, id: JobId) {
    match step
    case Work(w, act) =>
      match act {
        case ReserveFrom(tier) => s.queues.Lane(tier) != [] && Last(s.queues.Lane(tier)) == id
        case BlockOn(tier) => s.queues.Lane(tier) != [] && Last(s.queues.Lane(tier)) == id
        case StashIt => w in s.procs && !s.procs[w].phase.Idle? && s.procs[w].phase.id == id
        case LockIt => w in s.procs && !s.procs[w].phase.Idle? && s.procs[w].phase.id == id
        case Succeed(_) => w in s.procs && !s.procs[w].phase.Idle? && s.procs[w].phase.id == id
        case Fail(_, _, _) => w in s.procs && !s.procs[w].phase.Idle? && s.procs[w].phase.id == id
        case SkipSuccession => w in s.procs && !s.procs[w].phase.Idle? && s.procs[w].phase.id == id
        case Announce => w in s.procs && !s.procs[w].phase.Idle? && s.procs[w].phase.id == id
        case AckIt => w in s.procs && !s.procs[w].phase.Idle? && s.procs[w].phase.id == id
        case _ => false
      }
    case Daemon(act) =>
      match act {
        case Push(_, x) => x == id
        case Reclaim(_) => Stale(s.tables, id, cfg.visibilityTimeout, s.now)
        case PromoteRetries(_) => RetryDue(s.tables, id, s.now)
        case PromoteDue => Due(s.queues.scheduled, id, s.now)
        case _ => false
      }
    case _ => false
  }

  /** The step lowers the potential by at least `paid`, and no execution goes uncounted. */
  ghost predicate Pays(s: System, s': System, id: JobId, paid: int) {
    && Potential(s', id) <= Potential(s, id) - paid
    && Hist(s', id).locks + Fuel(s', id) <= Hist(s, id).locks + Fuel(s, id)
  }

  function One(b: bool): int {
    if b then 1 else 0
  }

  predicate SameLiveness(s: System, s': System) {
    forall w :: w in s.procs && w in s'.procs ==> (s'.procs[w].live <==> s.procs[w].live)
  }

  /** Registering a new worker is the only way a process appears; it owns nothing yet. */
  lemma FuelSame(s: System, s': System, id: JobId)
    requires Hist(s', id) == Hist(s, id)
    requires id in s.tables.jobs <==> id in s'.tables.jobs
    requires id in s.tables.jobs ==> s'.tables.jobs[id] == s.tables.jobs[id]
    requires OwnedAt(s, id) && SameLiveness(s, s') && s.procs.Keys <= s'.procs.Keys
    ensures Fuel(s', id) == Fuel(s, id) && StatusRank(s', id) == StatusRank(s, id)
  {}

  lemma Balance(s: System, s': System, w: WorkerId, id: JobId)
    requires w in s.procs && w in s'.procs && s'.procs == s.procs[w := s'.procs[w]] && s'.hands == s.hands
    ensures Potential(s', id) - Potential(s, id)
         == 10 * (Fuel(s', id) - Fuel(s, id)) + StatusRank(s', id) - StatusRank(s, id)
            + Load(s'.queues, id) - Load(s.queues, id)
            + Duty(s'.procs[w].phase, id) - Duty(s.procs[w].phase, id)
  {
    DutiesUpdate(s.procs, w, s'.procs[w], id);
  }

  // ---- Worker steps ----

  lemma PopLoad(q: Queues, tier: Tier, id: JobId)
    requires q.Lane(tier) != []
    ensures Load(Pop(q, tier), id) == Load(q, id) - if Last(q.Lane(tier)) == id then 5 else 0
  {
    var lane := q.Lane(tier);
    assert lane == DropLast(lane) + [Last(lane)];
    assert Occurrences(DropLast(lane), id) == Occurrences(lane, id) - One(Last(lane) == id);
  }

  lemma FetchPays(s: System, s': System, w: WorkerId, tier: Tier, phase: Phase, id: JobId)
    requires Alert(s, w) && s.procs[w].phase.Idle? && s.queues.Lane(tier) != [] && OwnedAt(s, id)
    requires phase == Carrying(Last(s.queues.Lane(tier))) || phase == Reserved(Last(s.queues.Lane(tier)))
    requires s' == s.(queues := s'.queues, procs := To(s, w, phase))
    requires Load(s'.queues, id) == Load(Pop(s.queues, tier), id)
    ensures Pays(s, s', id, One(Last(s.queues.Lane(tier)) == id))
  {
    FuelSame(s, s', id);
    PopLoad(s.queues, tier, id);
    Balance(s, s', w, id);
  }

  lemma StashPays(s: System, w: WorkerId, x: JobId, id: JobId)
    requires Alert(s, w) && s.procs[w].phase == Carrying(x) && OwnedAt(s, id)
    ensures Pays(s, s.(queues := Stash(s.queues, x), procs := To(s, w, Reserved(x))), id, One(x == id))
  {
    var s' := s.(queues := Stash(s.queues, x), procs := To(s, w, Reserved(x)));
    FuelSame(s, s', id);
    Balance(s, s', w, id);
  }

  lemma OtherJobPays(s: System, s': System, w: WorkerId, id: JobId)
    requires w in s.procs && w in s'.procs && s'.procs == s.procs[w := s'.procs[w]] && s'.hands == s.hands
    requires SameLiveness(s, s') && OwnedAt(s, id) && Hist(s', id) == Hist(s, id)
    requires id in s.tables.jobs <==> id in s'.tables.jobs
    requires id in s.tables.jobs ==> s'.tables.jobs[id] == s.tables.jobs[id]
    requires Load(s'.queues, id) == Load(s.queues, id)
    requires Duty(s'.procs[w].phase, id) <= Duty(s.procs[w].phase, id)
    ensures Pays(s, s', id, Duty(s.procs[w].phase, id) - Duty(s'.procs[w].phase, id))
  {
    FuelSame(s, s', id);
    Balance(s, s', w, id);
  }

  lemma LockPays(s: System, w: WorkerId, id: JobId)
    requires Alert(s, w) && s.procs[w].phase == Reserved(id) && OwnedAt(s, id)
    ensures Pays(s, LockStep(s, w, id), id, 1)
  {
    var s' := LockStep(s, w, id);
    if Lockable(s.tables, id) {
      assert !Orphaned(s', id) && !Orphaned(s, id);
      Balance(s, s', w, id);
    } else {
      OtherJobPays(s, s', w, id);
    }
  }

  lemma SucceedPays(s: System, w: WorkerId, id: JobId, result: Option<string>)
    requires Alert(s, w) && InFlight(s, w, id) && OwnedAt(s, id) && SteadyAt(s, id)
    ensures Pays(s, SucceedStep(s, w, id, result), id, 1)
  {
    assert Owns(s, w, id);
    Balance(s, SucceedStep(s, w, id, result), w, id);
  }

  lemma FailPays(s: System, w: WorkerId, id: JobId, error: string, draw: real, letter: LetterId)
    requires Alert(s, w) && InFlight(s, w, id) && OwnedAt(s, id) && SteadyAt(s, id)
    ensures Pays(s, FailStep(s, w, id, AttemptOf(s, w), error, draw, letter), id, 1)
  {
    assert Owns(s, w, id);
    Balance(s, FailStep(s, w, id, AttemptOf(s, w), error, draw, letter), w, id);
  }

  lemma OtherOutcomeFrame(cfg: Config, s: System, w: WorkerId, act: WorkerAct, id: JobId)
    requires WorkEnabled(cfg, s, w, act) && (act.LockIt? || act.Succeed? || act.Fail?) && s.procs[w].phase.id != id
    ensures var s' := Work1(cfg, s, w, act);
            && w in s'.procs && s'.procs == s.procs[w := s'.procs[w]] && s'.procs[w].live
            && s'.hands == s.hands && s'.queues == s.queues && Hist(s', id) == Hist(s, id)
            && (id in s.tables.jobs <==> id in s'.tables.jobs)
            && (id in s.tables.jobs ==> s'.tables.jobs[id] == s.tables.jobs[id])
            && Duty(s.procs[w].phase, id) == Duty(s'.procs[w].phase, id) == 0
  {}

  lemma OtherOutcomePays(cfg: Config, s: System, w: WorkerId, act: WorkerAct, id: JobId)
    requires WorkEnabled(cfg, s, w, act) && (act.LockIt? || act.Succeed? || act.Fail?)
    requires OwnedAt(s, id) && s.procs[w].phase.id != id
    ensures Pays(s, Work1(cfg, s, w, act), id, 0)
  {
    OtherOutcomeFrame(cfg, s, w, act, id);
    OtherJobPays(s, Work1(cfg, s, w, act), w, id);
  }

  lemma OutcomePays(cfg: Config, s: System, w: WorkerId, act: WorkerAct, id: JobId)
    requires WorkEnabled(cfg, s, w, act) && (act.LockIt? || act.Succeed? || act.Fail?)
    requires OwnedAt(s, id) && SteadyAt(s, id)
    ensures Pays(s, Work1(cfg, s, w, act), id, One(s.procs[w].phase.id == id))
  {
    if s.procs[w].phase.id != id {
      OtherOutcomePays(cfg, s, w, act, id);
    } else if act.LockIt? {
      LockPays(s, w, id);
    } else if act.Succeed? {
      SucceedPays(s, w, id, act.result);
    } else {
      FailPays(s, w, id, act.error, act.draw, act.letter);
    }
  }

  lemma AnnouncePays(s: System, w: WorkerId, x: JobId, next: JobId, id: JobId)
    requires Alert(s, w) && s.procs[w].phase == Announcing(x, next) && OwnedAt(s, id) && ExactAt(s, id)
    ensures Pays(s, s.(queues := ZAdd(s.queues, next, ScoreOf(s, next)), procs := To(s, w, Settled(x))), id, One(x
         == id))
  {
    var s' := s.(queues := ZAdd(s.queues, next, ScoreOf(s, next)), procs := To(s, w, Settled(x)));
    FuelSame(s, s', id);
    Balance(s, s', w, id);
  }

  lemma SkipPays(s: System, w: WorkerId, x: JobId, id: JobId)
    requires Alert(s, w) && s.procs[w].phase == Finishing(x) && OwnedAt(s, id)
    ensures Pays(s, s.(procs := To(s, w, Settled(x))), id, One(x == id))
  {
    OtherJobPays(s, s.(procs := To(s, w, Settled(x))), w, id);
  }

  lemma AckLoad(q: Queues, x: JobId, id: JobId)
    ensures Load(Ack(q, x), id) == Load(q, id)
  {}

  lemma AckPays(s: System, w: WorkerId, x: JobId, id: JobId)
    requires Alert(s, w) && s.procs[w].phase == Settled(x) && OwnedAt(s, id)
    ensures Pays(s, s.(queues := Ack(s.queues, x), procs := To(s, w, Idle)), id, One(x == id))
  {
    var s' := s.(queues := Ack(s.queues, x), procs := To(s, w, Idle));
    AckLoad(s.queues, x, id);
    FuelSame(s, s', id);
    Balance(s, s', w, id);
  }

  lemma PresencePays(cfg: Config, s: System, w: WorkerId, act: WorkerAct, id: JobId)
    requires WorkEnabled(cfg, s, w, act) && (act.Register? || act.Beat? || act.Quit?) && OwnedAt(s, id)
    ensures Pays(s, Work1(cfg, s, w, act), id, 0)
  {
    var s' := Work1(cfg, s, w, act);
    if act.Register? || act.Quit? {
      DutiesUpdate(s.procs, w, s'.procs[w], id);
    }
    assert Orphaned(s', id) == Orphaned(s, id);
  }

  lemma WorkPays(cfg: Config, s: System, w: WorkerId, act: WorkerAct, id: JobId)
    requires WorkEnabled(cfg, s, w, act) && !act.Succession? && !act.Crash?
    requires OwnedAt(s, id) && SteadyAt(s, id) && ExactAt(s, id)
    ensures Pays(s, Work1(cfg, s, w, act), id, One(Advances(cfg, s, Work(w, act), id)))
  {
    if act.ReserveFrom? || act.BlockOn? {
      FetchPays(s, Work1(cfg, s, w, act), w, act.tier, Work1(cfg, s, w, act).procs[w].phase, id);
    } else if act.StashIt? {
      StashPays(s, w, s.procs[w].phase.id, id);
    } else if act.LockIt? || act.Succeed? || act.Fail? {
      OutcomePays(cfg, s, w, act, id);
    } else if act.Announce? {
      AnnouncePays(s, w, s.procs[w].phase.id, s.procs[w].phase.next, id);
    } else if act.SkipSuccession? {
      SkipPays(s, w, s.procs[w].phase.id, id);
    } else if act.AckIt? {
      AckPays(s, w, s.procs[w].phase.id, id);
    } else {
      PresencePays(cfg, s, w, act, id);
    }
  }

  /** A crash costs at most one more execution, of the job the worker was executing. */
  lemma CrashPays(cfg: Config, s: System, w: WorkerId, id: JobId)
    requires WorkEnabled(cfg, s, w, Crash) && OwnedAt(s, id)
    ensures var s' := Work1(cfg, s, w, Crash);
            var cost := One(InFlight(s, w, id));
            && Potential(s', id) <= Potential(s, id) + 10 * cost
            && Hist(s', id).locks + Fuel(s', id) <= Hist(s, id).locks + Fuel(s, id) + cost
  {
    var s' := Work1(cfg, s, w, Crash);
    DutiesUpdate(s.procs, w, s'.procs[w], id);
    assert forall v :: v != w ==> (Alert(s', v) <==> Alert(s, v));
  }

  // ---- Reaper, scheduler, clients ----

  lemma FuelKept(s: System, s': System, id: JobId)
    requires s'.tables.jobs == s.tables.jobs && s'.procs == s.procs && Hist(s', id) == Hist(s, id)
    ensures Fuel(s', id) == Fuel(s, id) && StatusRank(s', id) == StatusRank(s, id)
  {}

  lemma ReclaimPays(cfg: Config, s: System, via: Reclaimer, id: JobId)
    requires Sane(cfg) && Timely(cfg, s) && Registered(s) && OwnedAt(s, id)
    ensures Pays(s, ReclaimStep(cfg, s, via), id, One(Stale(s.tables, id, cfg.visibilityTimeout, s.now)))
  {
    var s' := ReclaimStep(cfg, s, via);
    if Stale(s.tables, id, cfg.visibilityTimeout, s.now) {
      var v := s.tables.jobs[id].lockedBy.value;
      if Alert(s, v) {
        LiveExecutionIsNotStale(cfg, s, v, id);
      }
      assert Orphaned(s, id) && !Orphaned(s', id);
      assert Fuel(s', id) == Fuel(s, id);
      assert HandLoad(s'.hands, id) <= HandLoad(s.hands, id) + 7;
    } else {
      assert Orphaned(s', id) == Orphaned(s, id);
      assert HandLoad(s'.hands, id) == HandLoad(s.hands, id);
    }
  }

  lemma DueRetryFuel(cfg: Config, s: System, via: Reclaimer, id: JobId)
    ensures var s' := Daemon1(cfg, s, PromoteRetries(via));
            && Fuel(s', id) == Fuel(s, id) && Hist(s', id) == Hist(s, id)
            && StatusRank(s', id) == StatusRank(s, id) - if RetryDue(s.tables, id, s.now) then 8 else 0
  {}

  lemma DueRetryLoad(cfg: Config, s: System, via: Reclaimer, id: JobId)
    ensures var s' := Daemon1(cfg, s, PromoteRetries(via));
            && s'.queues == s.queues && s'.procs == s.procs
            && HandLoad(s'.hands, id) == HandLoad(s.hands, id) + if RetryDue(s.tables, id, s.now) then 6 else 0
  {}

  lemma PromoteRetriesPays(cfg: Config, s: System, via: Reclaimer, id: JobId)
    ensures Pays(s, Daemon1(cfg, s, PromoteRetries(via)), id, One(RetryDue(s.tables, id, s.now)))
  {
    DueRetryFuel(cfg, s, via, id);
    DueRetryLoad(cfg, s, via, id);
  }

  lemma PushLoad(s: System, route: Route, x: JobId, id: JobId)
    requires x in s.hands.On(route)
    ensures var s' := PushStep(s, route, x);
            Load(s'.queues, id) + HandLoad(s'.hands, id) <= Load(s.queues, id) + HandLoad(s.hands, id) - One(x == id)
  {
    if x == id {
      OwnPushLoad(s, route, id);
    } else {
      PushQueueLoad(s, route, x, id);
      TakeLeavesOthers(s.hands, route, x, id);
      TakeLeavesOthers(s.hands.Take(route, x), GiveBack, x, id);
    }
  }

  lemma PushQueueLoad(s: System, route: Route, x: JobId, id: JobId)
    requires x != id
    ensures Load(PushStep(s, route, x).queues, id) == Load(s.queues, id)
  {
    if route == Unprocess {
      AckLoad(s.queues, x, id);
    } else if route != OnCalendar {
      OtherListLoad(s.queues, if route == ByPriority then TierOf(SpecOf(s, x).priority) else Default, x, id);
    }
  }

  lemma OtherListLoad(q: Queues, tier: Tier, x: JobId, id: JobId)
    requires x != id
    ensures Load(LPush(q, tier, x), id) == Load(q, id) && Load(RPush(q, tier, x), id) == Load(q, id)
  {}

  lemma OwnPushLoad(s: System, route: Route, id: JobId)
    requires id in s.hands.On(route)
    ensures var s' := PushStep(s, route, id);
            Load(s'.queues, id) + HandLoad(s'.hands, id) <= Load(s.queues, id) + HandLoad(s.hands, id) - 1
  {
    TakeLoad(s.hands, route, id);
    if route == Unprocess {
      PutLoad(s.hands.Take(route, id), id);
    } else if route == OnCalendar {
      assert PushStep(s, route, id).queues == ZAdd(s.queues, id, ScoreOf(s, id));
    } else {
      ListLoad(s.queues, if route == ByPriority then TierOf(SpecOf(s, id).priority) else Default, id);
    }
  }

  lemma ListLoad(q: Queues, tier: Tier, id: JobId)
    ensures Load(LPush(q, tier, id), id) == Load(q, id) + 5
    ensures Load(RPush(q, tier, id), id) == Load(q, id) + 5
  {}

  lemma TakeLoad(h: Hands, route: Route, id: JobId)
    requires id in h.On(route)
    ensures HandLoad(h.Take(route, id), id) == HandLoad(h, id) - if route == Unprocess || route
         == OnCalendar then 7 else 6
  {}

  lemma PutLoad(h: Hands, id: JobId)
    ensures HandLoad(h.Put(GiveBack, multiset{id}), id) == HandLoad(h, id) + 6
  {}

  lemma PushFrame(s: System, route: Route, x: JobId, id: JobId)
    ensures var s' := PushStep(s, route, x);
            s'.tables == s.tables && s'.procs == s.procs && s'.hist == s.hist
            && Fuel(s', id) == Fuel(s, id) && StatusRank(s', id) == StatusRank(s, id)
  {
    PushKeepsRows(s, route, x);
    FuelKept(s, PushStep(s, route, x), id);
  }

  lemma PushKeepsRows(s: System, route: Route, x: JobId)
    ensures var s' := PushStep(s, route, x);
            s'.tables == s.tables && s'.procs == s.procs && s'.hist == s.hist
  {}

  /** With the rows and the processes as they were, only references count. */
  lemma LighterPays(s: System, s': System, id: JobId, paid: int)
    requires s'.procs == s.procs && s'.hist == s.hist
    requires Fuel(s', id) == Fuel(s, id) && StatusRank(s', id) == StatusRank(s, id)
    requires Load(s'.queues, id) + HandLoad(s'.hands, id) <= Load(s.queues, id) + HandLoad(s.hands, id) - paid
    ensures Pays(s, s', id, paid)
  {}

  lemma PushPays(s: System, route: Route, x: JobId, id: JobId)
    requires x in s.hands.On(route)
    ensures Pays(s, PushStep(s, route, x), id, One(x == id))
  {
    PushFrame(s, route, x, id);
    PushLoad(s, route, x, id);
    LighterPays(s, PushStep(s, route, x), id, One(x == id));
  }

  lemma PromoteLoad(q: Queues, now: Time, id: JobId)
    ensures Load(Promote(q, now), id) == Load(q, id) - One(Due(q.scheduled, id, now))
  {
    var due := DueOrder(q.scheduled, now);
    OrderedOnce(q.scheduled, due, id);
    assert Occurrences(Reverse(due) + q.normal, id) == Occurrences(due, id) + Occurrences(q.normal, id);
  }

  lemma DaemonPays(cfg: Config, s: System, act: DaemonAct, id: JobId)
    requires DaemonEnabled(s, act) && !act.Resync?
    requires Sane(cfg) && Timely(cfg, s) && Registered(s) && OwnedAt(s, id)
    ensures Pays(s, Daemon1(cfg, s, act), id, One(Advances(cfg, s, Daemon(act), id)))
  {
    match act
    case Reclaim(via) => ReclaimPays(cfg, s, via, id);
    case PromoteRetries(via) => PromoteRetriesPays(cfg, s, via, id);
    case Push(route, x) => PushPays(s, route, x, id);
    case PromoteDue =>
      PromoteLoad(s.queues, s.now, id);
      FuelKept(s, Daemon1(cfg, s, act), id);
    case Expire => FuelKept(s, Daemon1(cfg, s, act), id);
  }

  lemma SweepAllLoad(q: Queues, x: JobId, id: JobId)
    ensures Load(SweepAll(q, x), id) <= Load(q, id)
  {}

  lemma CancelFuel(s: System, x: JobId, id: JobId)
    requires x in s.tables.jobs
    ensures var s' := s.(tables := CancelJob(s.tables, x));
            Fuel(s', id) <= Fuel(s, id) && StatusRank(s', id) == StatusRank(s, id)
  {}

  lemma CancelPays(s: System, x: JobId, id: JobId)
    requires x in s.tables.jobs
    ensures Pays(s, s.(tables := CancelJob(s.tables, x), queues := SweepAll(s.queues, x)), id, 0)
  {
    var s' := s.(tables := CancelJob(s.tables, x), queues := SweepAll(s.queues, x));
    SweepAllLoad(s.queues, x, id);
    CancelFuel(s, x, id);
    FuelKept(s.(tables := CancelJob(s.tables, x)), s', id);
    assert s'.procs == s.procs && s'.hands == s.hands;
  }

  /** The state of a timely, loyal run. */
  ghost predicate Settling(s: System) {
    Orderly(s) && Exact(s) && NothingLost(s) && forall id :: SteadyAt(s, id)
  }

  predicate IsCrash(step: Step) {
    step.Work? && step.act.Crash?
  }

  lemma StepPays(cfg: Config, s: System, step: Step, id: JobId)
    requires Enabled(cfg, s, step) && Loyal(s, step) && Internal(step) && !IsCrash(step)
    requires Sane(cfg) && Timely(cfg, s) && Settling(s)
    ensures Pays(s, Apply(cfg, s, step), id, One(Advances(cfg, s, step, id)))
  {
    assert OrderlyAt(s, id) && ExactAt(s, id) && SteadyAt(s, id);
    match step
    case Work(w, act) => WorkPays(cfg, s, w, act, id);
    case Daemon(act) => DaemonPays(cfg, s, act, id);
    case Client(act) => CancelPays(s, act.id, id);
    case Env(act) => FuelKept(s, Apply(cfg, s, step), id);
  }

  // ---- All jobs together ----

  ghost function TotalPotential(s: System): int {
    Sum(s.tables.jobs.Keys, (id: JobId) => Potential(s, id))
  }

  ghost function TotalFuel(s: System): int {
    Sum(s.tables.jobs.Keys, (id: JobId) => Fuel(s, id))
  }

  /** Executions so far. */
  ghost function TotalLocks(s: System): int {
    Sum(s.tables.jobs.Keys, (id: JobId) => Hist(s, id).locks)
  }

  /** Executions so far and still possible. */
  ghost function Budget(s: System): int {
    Sum(s.tables.jobs.Keys, (id: JobId) => Hist(s, id).locks + Fuel(s, id))
  }

  ghost predicate Productive(cfg: Config, s: System, step: Step) {
    exists id :: Advances(cfg, s, step, id)
  }

  lemma PotentialNonnegative(s: System, id: JobId)
    ensures Fuel(s, id) >= 0 && Potential(s, id) >= 0
  {
    DutiesNonnegative(s.procs, id);
  }

  lemma TotalsNonnegative(s: System)
    ensures TotalPotential(s) >= 0 && TotalFuel(s) >= 0
  {
    forall id | id in s.tables.jobs.Keys ensures Fuel(s, id) >= 0 && Potential(s, id) >= 0 {
      PotentialNonnegative(s, id);
    }
    SumNonnegative(s.tables.jobs.Keys, (id: JobId) => Potential(s, id));
    SumNonnegative(s.tables.jobs.Keys, (id: JobId) => Fuel(s, id));
  }

  lemma BudgetSplits(s: System)
    ensures Budget(s) == TotalLocks(s) + TotalFuel(s)
  {
    SumAdd(s.tables.jobs.Keys, (id: JobId) => Hist(s, id).locks, (id: JobId) => Fuel(s, id), (id: JobId) => Hist(s,
        id).locks + Fuel(s, id));
  }

  lemma WorkAddsNoRows(cfg: Config, s: System, w: WorkerId, act: WorkerAct)
    requires WorkEnabled(cfg, s, w, act) && !act.Succession?
    ensures Work1(cfg, s, w, act).tables.jobs.Keys == s.tables.jobs.Keys
  {}

  lemma NoNewRows(cfg: Config, s: System, step: Step)
    requires Enabled(cfg, s, step) && Loyal(s, step) && Internal(step)
    ensures Apply(cfg, s, step).tables.jobs.Keys == s.tables.jobs.Keys
  {
    match step
    case Work(w, act) => WorkAddsNoRows(cfg, s, w, act);
    case Daemon(act) =>
    case Client(act) => assert act.Cancel?;
    case Env(act) =>
  }

  lemma AdvancesKnownJob(cfg: Config, s: System, step: Step, id: JobId)
    requires Enabled(cfg, s, step) && Grounded(s) && Advances(cfg, s, step, id)
    ensures id in s.tables.jobs
  {
    assert GroundedAt(s, id);
    if step.Work? && step.w in s.procs && !s.procs[step.w].phase.Idle? {
      ProcessIsGrounded(s, step.w);
    }
  }

  lemma SumDrops(keys: set<nat>, f: nat -> int, g: nat -> int, k: nat)
    requires k in keys && g(k) < f(k) && forall j :: j in keys ==> g(j) <= f(j)
    ensures Sum(keys, g) < Sum(keys, f)
  {
    SumSplit(keys, f, k);
    SumSplit(keys, g, k);
    SumAtMost(keys - {k}, g, f);
  }

  lemma SumRises(keys: set<nat>, f: nat -> int, g: nat -> int, k: nat, cost: nat)
    requires forall j :: j in keys ==> g(j) <= f(j) + if j == k then cost else 0
    ensures Sum(keys, g) <= Sum(keys, f) + cost
  {
    if k in keys {
      SumSplit(keys, f, k);
      SumSplit(keys, g, k);
      SumAtMost(keys - {k}, g, f);
    } else {
      SumAtMost(keys, g, f);
    }
  }

  lemma BudgetFollows(s: System, s': System)
    requires s'.tables.jobs.Keys == s.tables.jobs.Keys && forall id :: Pays(s, s', id, 0)
    ensures Budget(s') <= Budget(s)
  {
    forall id: JobId | id in s.tables.jobs.Keys
      ensures Hist(s', id).locks + Fuel(s', id) <= Hist(s, id).locks + Fuel(s, id)
    {
      assert Pays(s, s', id, 0);
    }
    SumAtMost(s.tables.jobs.Keys, (id: JobId) => Hist(s', id).locks + Fuel(s', id), (id: JobId) => Hist(s,
        id).locks + Fuel(s, id));
  }

  lemma PotentialFollows(s: System, s': System)
    requires s'.tables.jobs.Keys == s.tables.jobs.Keys && forall id :: Pays(s, s', id, 0)
    ensures TotalPotential(s') <= TotalPotential(s)
    ensures forall id :: id in s.tables.jobs && Pays(s, s', id, 1) ==> TotalPotential(s') < TotalPotential(s)
  {
    var keys := s.tables.jobs.Keys;
    forall id: JobId | id in keys ensures Potential(s', id) <= Potential(s, id) {
      assert Pays(s, s', id, 0);
    }
    SumAtMost(keys, (id: JobId) => Potential(s', id), (id: JobId) => Potential(s, id));
    forall id | id in s.tables.jobs && Pays(s, s', id, 1) ensures TotalPotential(s') < TotalPotential(s) {
      SumDrops(keys, (j: JobId) => Potential(s, j), (j: JobId) => Potential(s', j), id);
    }
  }

  lemma TotalPays(cfg: Config, s: System, step: Step)
    requires Enabled(cfg, s, step) && Loyal(s, step) && Internal(step) && !IsCrash(step)
    requires Sane(cfg) && Timely(cfg, s) && Settling(s)
    ensures var s' := Apply(cfg, s, step);
            && TotalPotential(s') <= TotalPotential(s) - (if Productive(cfg, s, step) then 1 else 0)
            && Budget(s') <= Budget(s)
  {
    var s' := Apply(cfg, s, step);
    NoNewRows(cfg, s, step);
    forall id ensures Pays(s, s', id, 0) {
      StepPays(cfg, s, step, id);
    }
    BudgetFollows(s, s');
    PotentialFollows(s, s');
    if id :| Advances(cfg, s, step, id) {
      AdvancesKnownJob(cfg, s, step, id);
      StepPays(cfg, s, step, id);
      assert Pays(s, s', id, 1);
    }
  }

  lemma CrashTotals(cfg: Config, s: System, w: WorkerId)
    requires WorkEnabled(cfg, s, w, Crash) && Settling(s)
    ensures var s' := Work1(cfg, s, w, Crash);
            TotalPotential(s') <= TotalPotential(s) + 10 && Budget(s') <= Budget(s) + 1
  {
    var s' := Work1(cfg, s, w, Crash);
    var keys := s.tables.jobs.Keys;
    var job := if s.procs[w].phase.Executing? then s.procs[w].phase.id else 0;
    forall id
      ensures Potential(s', id) <= Potential(s, id) + if id == job then 10 else 0
      ensures Hist(s', id).locks + Fuel(s', id) <= Hist(s, id).locks + Fuel(s, id) + if id == job then 1 else 0
    {
      assert OrderlyAt(s, id);
      CrashPays(cfg, s, w, id);
    }
    SumRises(keys, (id: JobId) => Potential(s, id), (id: JobId) => Potential(s', id), job, 10);
    SumRises(keys, (id: JobId) => Hist(s, id).locks + Fuel(s, id), (id: JobId) => Hist(s', id).locks + Fuel(s', id),
        job, 1);
  }

  // ---- Whole runs ----

  lemma RunSettles(cfg: Config, ss: seq<System>, steps: seq<Step>, n: nat)
    requires LoyalRun(cfg, ss, steps) && n < |ss|
    ensures Settling(ss[n])
  {
    AlwaysExact(cfg, ss, steps, n);
    assert forall i {:trigger steps[i]} :: 0 <= i < n ==> Loyal(ss[i], steps[i]);
    NeverLost(cfg, ss, steps, n);
    forall id ensures SteadyAt(ss[n], id) {
      AlwaysSteady(cfg, ss, steps, n, id);
    }
  }

  ghost predicate ClosedFrom(cfg: Config, ss: seq<System>, steps: seq<Step>, k: nat) {
    LoyalRun(cfg, ss, steps) && k < |ss| && forall i :: k <= i < |steps| ==> Internal(steps[i])
  }

  ghost function WorkDone(cfg: Config, ss: seq<System>, steps: seq<Step>, k: nat, n: nat): nat
    requires |ss| == |steps| + 1 && k <= n < |ss|
  {
    if n == k then 0
    else WorkDone(cfg, ss, steps, k, n - 1) + if Productive(cfg, ss[n - 1], steps[n - 1]) then 1 else 0
  }

  function Crashes(steps: seq<Step>, k: nat, n: nat): nat
    requires k <= n <= |steps|
  {
    if n == k then 0 else Crashes(steps, k, n - 1) + if IsCrash(steps[n - 1]) then 1 else 0
  }

  lemma StepTotals(cfg: Config, s: System, step: Step)
    requires Enabled(cfg, s, step) && Loyal(s, step) && Internal(step) && Sane(cfg) && Timely(cfg, s) && Settling(s)
    ensures var s', crash := Apply(cfg, s, step), if IsCrash(step) then 1 else 0;
            && TotalPotential(s') + (if Productive(cfg, s, step) then 1 else 0) <= TotalPotential(s) + 10 * crash
            && Budget(s') <= Budget(s) + crash
  {
    if IsCrash(step) {
      CrashTotals(cfg, s, step.w);
      assert !Productive(cfg, s, step);
    } else {
      TotalPays(cfg, s, step);
    }
  }

  lemma OneMoreStep(cfg: Config, ss: seq<System>, steps: seq<Step>, k: nat, n: nat)
    requires |ss| == |steps| + 1 && k < n < |ss|
    ensures WorkDone(cfg, ss, steps, k, n)
         == WorkDone(cfg, ss, steps, k, n - 1) + if Productive(cfg, ss[n - 1], steps[n - 1]) then 1 else 0
    ensures Crashes(steps, k, n) == Crashes(steps, k, n - 1) + if IsCrash(steps[n - 1]) then 1 else 0
  {}

  lemma RunStepTotals(cfg: Config, ss: seq<System>, steps: seq<Step>, n: nat)
    requires LoyalRun(cfg, ss, steps) && 0 < n < |ss| && Internal(steps[n - 1])
    ensures var crash := if IsCrash(steps[n - 1]) then 1 else 0;
            && TotalPotential(ss[n]) + (if Productive(cfg, ss[n - 1], steps[n - 1]) then 1 else 0)
               <= TotalPotential(ss[n - 1]) + 10 * crash
            && Budget(ss[n]) <= Budget(ss[n - 1]) + crash
  {
    RunSettles(cfg, ss, steps, n - 1);
    StepTotals(cfg, ss[n - 1], steps[n - 1]);
  }

  ghost predicate Paid(cfg: Config, ss: seq<System>, steps: seq<Step>, k: nat, n: nat)
    requires |ss| == |steps| + 1 && k <= n < |ss|
  {
    && TotalPotential(ss[n]) + WorkDone(cfg, ss, steps, k, n) <= TotalPotential(ss[k]) + 10 * Crashes(steps, k, n)
    && Budget(ss[n]) <= Budget(ss[k]) + Crashes(steps, k, n)
  }

  lemma PaidOn(cfg: Config, ss: seq<System>, steps: seq<Step>, k: nat, n: nat)
    requires LoyalRun(cfg, ss, steps) && k < n < |ss| && Internal(steps[n - 1]) && Paid(cfg, ss, steps, k, n - 1)
    ensures Paid(cfg, ss, steps, k, n)
  {
    RunStepTotals(cfg, ss, steps, n);
    OneMoreStep(cfg, ss, steps, k, n);
  }

  lemma {:induction false} AlwaysPaid(cfg: Config, ss: seq<System>, steps: seq<Step>, k: nat, n: nat)
    requires ClosedFrom(cfg, ss, steps, k) && k <= n < |ss|
    ensures Paid(cfg, ss, steps, k, n)
    decreases n
  {
    if k < n {
      AlwaysPaid(cfg, ss, steps, k, n - 1);
      PaidOn(cfg, ss, steps, k, n);
    }
  }

  /** From k on, every productive step is paid for by the potential at k or by a crash. */
  lemma WorkIsBounded(cfg: Config, ss: seq<System>, steps: seq<Step>, k: nat, n: nat)
    requires ClosedFrom(cfg, ss, steps, k) && k <= n < |ss|
    ensures TotalPotential(ss[n]) + WorkDone(cfg, ss, steps, k, n) <= TotalPotential(ss[k]) + 10 * Crashes(steps, k, n)
    ensures Budget(ss[n]) <= Budget(ss[k]) + Crashes(steps, k, n)
    ensures TotalPotential(ss[n]) >= 0 && TotalFuel(ss[n]) >= 0
  {
    AlwaysPaid(cfg, ss, steps, k, n);
    TotalsNonnegative(ss[n]);
  }

  /** The attempts that all jobs were given when they were submitted. */
  ghost function TotalAttempts(s: System): int {
    Sum(s.tables.jobs.Keys, (id: JobId) => SpecOf(s, id).maxAttempts)
  }

  lemma FuelBelowAttempts(s: System)
    requires Grounded(s)
    ensures TotalFuel(s) <= TotalAttempts(s)
  {
    forall id: JobId | id in s.tables.jobs.Keys ensures Fuel(s, id) <= SpecOf(s, id).maxAttempts {
      assert GroundedAt(s, id);
    }
    SumAtMost(s.tables.jobs.Keys, (id: JobId) => Fuel(s, id), (id: JobId) => SpecOf(s, id).maxAttempts);
  }

  /** The executions after k are at most the jobs' own attempts, whatever happened before k, plus one for each crash. */
  lemma ExecutionsAreBounded(cfg: Config, ss: seq<System>, steps: seq<Step>, k: nat, n: nat)
    requires ClosedFrom(cfg, ss, steps, k) && k <= n < |ss|
    ensures TotalLocks(ss[n]) - TotalLocks(ss[k]) <= TotalFuel(ss[k]) + Crashes(steps, k, n)
    ensures TotalLocks(ss[n]) - TotalLocks(ss[k]) <= TotalAttempts(ss[k]) + Crashes(steps, k, n)
  {
    WorkIsBounded(cfg, ss, steps, k, n);
    BudgetSplits(ss[k]);
    BudgetSplits(ss[n]);
    AlwaysGrounded(cfg, ss, steps, k);
    FuelBelowAttempts(ss[k]);
  }
}
