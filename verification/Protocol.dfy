/**
 The whole system as a transition system. One step is one committed transaction, one Redis command, the
 promotion script, or an event of the environment; everything else is the process-local state between them.
 */
module Protocol {
  import opened Domain
  import opened Tables
  import opened Queues
  import opened Recurrence
  import opened Backoff

  /** What Postgres and Redis hold. */
  datatype Stores = Stores(rows: Tables, lists: Queues)

  // ---- What each process has in its hands between two atomic steps ----

  datatype Phase =
    | Idle
    | Carrying(id: JobId)                // popped by BRPOP, not yet in the processing list
    | Reserved(id: JobId)                // in the processing list, not yet locked
    | Executing(id: JobId, attempt: nat, since: Time)
    | Finishing(id: JobId)               // SUCCESS committed, successor of a recurring job not yet inserted
    | Announcing(id: JobId, next: JobId) // successor inserted, not yet in the scheduled set
    | Settled(id: JobId)                 // outcome committed, not yet acknowledged

  datatype Proc = Proc(live: bool, phase: Phase, processed: nat)

  /** How an id that a process has committed in Postgres will reach Redis. */
  datatype Route =
    | ByPriority   // enqueue_job with the row's priority
    | ToDefault    // LPUSH onto the default queue
    | Unprocess    // first half of requeue_job: LREM from the processing list
    | GiveBack     // second half of requeue_job: RPUSH onto the default queue
    | OnCalendar   // ZADD with the row's scheduled_for

  datatype Hands = Hands(
    byPriority: multiset<JobId>,
    toDefault: multiset<JobId>,
    unprocess: multiset<JobId>,
    giveBack: multiset<JobId>,
    onCalendar: multiset<JobId>)
  {
    function On(route: Route): multiset<JobId> {
      match route
      case ByPriority => byPriority
      case ToDefault => toDefault
      case Unprocess => unprocess
      case GiveBack => giveBack
      case OnCalendar => onCalendar
    }

    function With(route: Route, ids: multiset<JobId>): Hands {
      match route
      case ByPriority => this.(byPriority := ids)
      case ToDefault => this.(toDefault := ids)
      case Unprocess => this.(unprocess := ids)
      case GiveBack => this.(giveBack := ids)
      case OnCalendar => this.(onCalendar := ids)
    }

    function Put(route: Route, ids: multiset<JobId>): Hands {
      With(route, On(route) + ids)
    }

    function Take(route: Route, id: JobId): Hands {
      With(route, On(route) - multiset{id})
    }

    /** How many pending pushes carry this id. */
    function Count(id: JobId): nat {
      byPriority[id] + toDefault[id] + unprocess[id] + giveBack[id] + onCalendar[id]
    }
  }

  const NO_HANDS := Hands(multiset{}, multiset{}, multiset{}, multiset{}, multiset{})

  lemma PutCounts(h: Hands, route: Route, ids: multiset<JobId>, id: JobId)
    ensures h.Put(route, ids).Count(id) == h.Count(id) + ids[id]
  {}

  lemma TakeCounts(h: Hands, route: Route, x: JobId, id: JobId)
    requires x in h.On(route)
    ensures h.Take(route, x).Count(id) == h.Count(id) - (if id == x then 1 else 0)
  {}

  predicate SameHands(h: Hands, g: Hands, id: JobId) {
    && g.byPriority[id] == h.byPriority[id] && g.toDefault[id] == h.toDefault[id]
    && g.unprocess[id] == h.unprocess[id] && g.giveBack[id] == h.giveBack[id]
    && g.onCalendar[id] == h.onCalendar[id]
  }

  lemma TakeLeavesOthers(h: Hands, route: Route, x: JobId, id: JobId)
    requires x != id
    ensures SameHands(h, h.Take(route, x), id)
    ensures SameHands(h, h.Put(route, multiset{x}), id)
  {}

  datatype Removal = Removal(id: JobId, place: Place)

  /** What the run has done to one job so far; no process reads it. The last replay found `restart` locks taken. */
  datatype History = History(locks: nat, reclaims: nat, replays: nat, restart: nat, chain: JobId)

  function NewHistory(chain: JobId): History {
    History(0, 0, 0, 0, chain)
  }

  datatype System = System(
    tables: Tables,
    queues: Queues,
    now: Time,
    procs: map<WorkerId, Proc>,
    hands: Hands,
    removals: multiset<Removal>,
    hist: map<JobId, History>,
    lastMark: Time,      // when workers were last checked for expiry
    passMark: Time,      // the check that the last reclaim followed
    passReclaim: Time)   // when stale jobs were last reclaimed

  function Hist(s: System, id: JobId): History {
    if id in s.hist then s.hist[id] else NewHistory(id)
  }

  /** An empty system has nothing to reclaim, as if a reaper pass had just completed. */
  predicate Initial(s: System) {
    s == System(NO_ROWS, NO_ENTRIES, s.now, map[], NO_HANDS, multiset{}, map[], s.now, s.now, s.now)
  }

  // ---- Steps ----

  datatype WorkerAct =
    | Register
    | Beat
    | Quit
    | Crash
    | ReserveFrom(tier: Tier)
    | BlockOn(tier: Tier)
    | StashIt
    | LockIt
    | Succeed(result: Option<string>)
    | Fail(error: string, draw: real, letter: LetterId)
    | Succession(next: JobId)
    | SkipSuccession
    | Announce
    | AckIt

  /** The standalone reaper and the scheduler run the same two statements and push differently. */
  datatype Reclaimer = ByReaper | ByScheduler

  datatype DaemonAct =
    | Expire
    | Reclaim(via: Reclaimer)
    | PromoteRetries(via: Reclaimer)
    | PromoteDue
    | Resync
    | Push(route: Route, id: JobId)

  datatype ClientAct =
    | Submit(id: JobId, spec: Spec, scheduledFor: Option<Time>)
    | Cancel(id: JobId)       // row and queue removal in one step
    | CancelRow(id: JobId)    // the row alone; the four removals follow as separate steps
    | Remove(id: JobId, place: Place)
    | Replay(letter: LetterId)

  datatype EnvAct =
    | Tick(to: Time)
    | Flush                            // Redis loses everything
    | DropPush(route: Route, id: JobId) // the process that owed a push is gone

  datatype Step =
    | Work(w: WorkerId, act: WorkerAct)
    | Daemon(daemon: DaemonAct)
    | Client(client: ClientAct)
    | Env(env: EnvAct)

  // ---- Worker ----

  function SpecOf(s: System, id: JobId): Spec {
    if id in s.tables.jobs then s.tables.jobs[id].spec else Spec("", "", 1.0, 0, 1, None)
  }

  function ScoreOf(s: System, id: JobId): Time {
    if id in s.tables.jobs && s.tables.jobs[id].scheduledFor.Some? then s.tables.jobs[id].scheduledFor.value else s.now
  }

  /** compute_next_run on the rule of the job that just succeeded. */
  function NextRun(cfg: Config, s: System, id: JobId): Result<Time> {
    var spec := SpecOf(s, id);
    if spec.rule.Some? then ComputeNextRun(spec.rule.value, s.now, cfg.cron) else Error(EmptyRule)
  }

  predicate NoneAbove(q: Queues, tier: Tier) {
    match tier
    case High => true
    case Default => q.high == []
    case Low => q.high == [] && q.normal == []
  }

  predicate Alert(s: System, w: WorkerId) {
    w in s.procs && s.procs[w].live
  }

  predicate WorkEnabled(cfg: Config, s: System, w: WorkerId, act: WorkerAct) {
    match act
    case Register => w !in s.procs && w !in s.tables.workers
    case Beat => Alert(s, w)
    case Quit => Alert(s, w) && s.procs[w].phase.Idle?
    case Crash => Alert(s, w)
    case ReserveFrom(tier) => Alert(s, w) && s.procs[w].phase.Idle? && s.queues.Lane(tier) != []
    case BlockOn(tier) => Alert(s, w) && s.procs[w].phase.Idle? && s.queues.Lane(tier) != []
        && NoneAbove(s.queues, tier)
    case StashIt => Alert(s, w) && s.procs[w].phase.Carrying?
    case LockIt => Alert(s, w) && s.procs[w].phase.Reserved?
    case Succeed(_) => Alert(s, w) && s.procs[w].phase.Executing?
    case Fail(_, draw, letter) =>
      Alert(s, w) && s.procs[w].phase.Executing? && 0.0 <= draw <= 1.0 && letter !in s.tables.letters
    case Succession(next) =>
      Alert(s, w) && s.procs[w].phase.Finishing? && next !in s.tables.jobs && NextRun(cfg, s, s.procs[w].phase.id).Ok?
    case SkipSuccession => Alert(s, w) && s.procs[w].phase.Finishing?
    case Announce => Alert(s, w) && s.procs[w].phase.Announcing?
    case AckIt => Alert(s, w) && s.procs[w].phase.Settled?
  }

  function To(s: System, w: WorkerId, phase: Phase): map<WorkerId, Proc>
    requires w in s.procs
  {
    s.procs[w := s.procs[w].(phase := phase)]
  }

  /** The outcome of an attempt is counted and leaves only the acknowledgement, or the successor, to do. */
  function Done(s: System, w: WorkerId, phase: Phase): map<WorkerId, Proc>
    requires w in s.procs
  {
    s.procs[w := s.procs[w].(phase := phase, processed := s.procs[w].processed + 1)]
  }

  function LockStep(s: System, w: WorkerId, id: JobId): System
    requires w in s.procs
  {
    if Lockable(s.tables, id) then
      s.(tables := FetchAndLock(s.tables, id, w, s.now),
         procs := To(s, w, Executing(id, s.tables.jobs[id].attempts + 1, s.now)),
         hist := s.hist[id := Hist(s, id).(locks := Hist(s, id).locks + 1)])
    else
      s.(procs := To(s, w, Settled(id)))
  }

  function SucceedStep(s: System, w: WorkerId, id: JobId, result: Option<string>): System
    requires w in s.procs
  {
    s.(tables := MarkSuccess(s.tables, id, result),
       procs := Done(s, w, if Recurring(SpecOf(s, id)) then Finishing(id) else Settled(id)))
  }

  function FailStep(s: System, w: WorkerId, id: JobId, attempt: nat, error: string, draw: real,
                    letter: LetterId): System
    requires w in s.procs
  {
    var spec := SpecOf(s, id);
    if attempt < spec.maxAttempts then
      s.(tables := MarkRetrying(s.tables, id, error, NextRetryAt(attempt, spec.baseDelay, draw, s.now)),
         procs := Done(s, w, Settled(id)))
    else
      s.(tables := MoveToDeadLetter(s.tables, id, error, attempt, letter, s.now),
         procs := Done(s, w, Settled(id)))
  }

  function SuccessionStep(cfg: Config, s: System, w: WorkerId, id: JobId, next: JobId): System
    requires w in s.procs && NextRun(cfg, s, id).Ok?
  {
    s.(tables := InsertJob(s.tables, next, SpecOf(s, id), Some(NextRun(cfg, s, id).value)),
       procs := To(s, w, Announcing(id, next)),
       hist := s.hist[next := NewHistory(Hist(s, id).chain)])
  }

  function Work1(cfg: Config, s: System, w: WorkerId, act: WorkerAct): System
    requires WorkEnabled(cfg, s, w, act)
  {
    match act
    case Register => s.(tables := UpsertHeartbeat(s.tables, w, 0, s.now), procs := s.procs[w := Proc(true, Idle, 0)])
    case Beat => s.(tables := UpsertHeartbeat(s.tables, w, s.procs[w].processed, s.now))
    case Quit => s.(tables := MarkWorkerDead(s.tables, w), procs := s.procs[w := s.procs[w].(live := false)])
    case Crash => s.(procs := s.procs[w := s.procs[w].(live := false)])
    case ReserveFrom(tier) =>
      s.(queues := Reserve(s.queues, tier), procs := To(s, w, Reserved(Last(s.queues.Lane(tier)))))
    case BlockOn(tier) =>
      s.(queues := Pop(s.queues, tier), procs := To(s, w, Carrying(Last(s.queues.Lane(tier)))))
    case StashIt =>
      s.(queues := Stash(s.queues, s.procs[w].phase.id), procs := To(s, w, Reserved(s.procs[w].phase.id)))
    case LockIt => LockStep(s, w, s.procs[w].phase.id)
    case Succeed(result) => SucceedStep(s, w, s.procs[w].phase.id, result)
    case Fail(error, draw, letter) =>
      FailStep(s, w, s.procs[w].phase.id, s.procs[w].phase.attempt, error, draw, letter)
    case Succession(next) => SuccessionStep(cfg, s, w, s.procs[w].phase.id, next)
    case SkipSuccession => s.(procs := To(s, w, Settled(s.procs[w].phase.id)))
    case Announce =>
      var p := s.procs[w].phase;
      s.(queues := ZAdd(s.queues, p.next, ScoreOf(s, p.next)), procs := To(s, w, Settled(p.id)))
    case AckIt => s.(queues := Ack(s.queues, s.procs[w].phase.id), procs := To(s, w, Idle))
  }

  // ---- Reaper and scheduler ----

  predicate DaemonEnabled(s: System, act: DaemonAct) {
    match act
    case Push(route, id) => id in s.hands.On(route)
    case _ => true
  }

  function ReclaimStep(cfg: Config, s: System, via: Reclaimer): System {
    var stale := StaleJobs(s.tables, cfg.visibilityTimeout, s.now);
    s.(tables := ReclaimStale(s.tables, cfg.visibilityTimeout, s.now),
       hands := s.hands.Put(if via == ByReaper then Unprocess else ByPriority, multiset(stale)),
       hist := map id | id in s.tables.jobs ::
         if id in stale then Hist(s, id).(reclaims := Hist(s, id).reclaims + 1) else Hist(s, id),
       passMark := s.lastMark,
       passReclaim := s.now)
  }

  function PushStep(s: System, route: Route, id: JobId): System {
    var rest := s.hands.Take(route, id);
    match route
    case ByPriority => s.(queues := LPush(s.queues, TierOf(SpecOf(s, id).priority), id), hands := rest)
    case ToDefault => s.(queues := LPush(s.queues, Default, id), hands := rest)
    case Unprocess => s.(queues := Ack(s.queues, id), hands := rest.Put(GiveBack, multiset{id}))
    case GiveBack => s.(queues := RPush(s.queues, Default, id), hands := rest)
    case OnCalendar => s.(queues := ZAdd(s.queues, id, ScoreOf(s, id)), hands := rest)
  }

  ghost function Daemon1(cfg: Config, s: System, act: DaemonAct): System
    requires DaemonEnabled(s, act)
  {
    match act
    case Expire => s.(tables := ExpireWorkers(s.tables, cfg.heartbeatTimeout, s.now), lastMark := s.now)
    case Reclaim(via) => ReclaimStep(cfg, s, via)
    case PromoteRetries(via) =>
      s.(tables := ReclaimDueRetries(s.tables, s.now),
         hands := s.hands.Put(if via == ByReaper then ToDefault else ByPriority, multiset(DueRetries(s.tables, s.now))))
    case PromoteDue => s.(queues := Promote(s.queues, s.now))
    case Resync => s.(hands := s.hands.Put(OnCalendar, multiset(PendingScheduled(s.tables))))
    case Push(route, id) => PushStep(s, route, id)
  }

  // ---- Clients ----

  /** What the request model and the rule check of submit_job let through. */
  predicate Acceptable(cfg: Config, s: System, spec: Spec) {
    && 1 <= spec.maxAttempts <= 50
    && (Recurring(spec) ==> ComputeNextRun(spec.rule.value, s.now, cfg.cron).Ok?)
  }

  predicate ClientEnabled(cfg: Config, s: System, act: ClientAct) {
    match act
    case Submit(id, spec, _) => id !in s.tables.jobs && Acceptable(cfg, s, spec)
    case Cancel(id) => id in s.tables.jobs
    case CancelRow(id) => id in s.tables.jobs
    case Remove(id, place) => Removal(id, place) in s.removals
    case Replay(letter) => letter in s.tables.letters
  }

  function AllRemovals(id: JobId): multiset<Removal> {
    multiset{Removal(id, Waiting(Default)), Removal(id, Waiting(High)), Removal(id, Waiting(Low)), Removal(id,
        Calendar)}
  }

  function ReplayStep(s: System, letter: LetterId): System
    requires letter in s.tables.letters
  {
    var id := s.tables.letters[letter].jobId;
    s.(tables := ReplayLetter(s.tables, letter),
       hands := s.hands.Put(ToDefault, multiset{id}),
       hist := s.hist[id := Hist(s, id).(replays := Hist(s, id).replays + 1, restart := Hist(s, id).locks)])
  }

  function Client1(cfg: Config, s: System, act: ClientAct): System
    requires ClientEnabled(cfg, s, act)
  {
    match act
    case Submit(id, spec, scheduledFor) =>
      s.(tables := InsertJob(s.tables, id, spec, scheduledFor),
         hands := s.hands.Put(if scheduledFor.None? then ByPriority else OnCalendar, multiset{id}),
         hist := s.hist[id := NewHistory(id)])
    case Cancel(id) => s.(tables := CancelJob(s.tables, id), queues := SweepAll(s.queues, id))
    case CancelRow(id) => s.(tables := CancelJob(s.tables, id), removals := s.removals + AllRemovals(id))
    case Remove(id, place) =>
      s.(queues := Sweep(s.queues, place, id), removals := s.removals - multiset{Removal(id, place)})
    case Replay(letter) => ReplayStep(s, letter)
  }

  // ---- Environment ----

  predicate EnvEnabled(s: System, act: EnvAct) {
    match act
    case Tick(to) => to >= s.now
    case Flush => true
    case DropPush(route, id) => id in s.hands.On(route)
  }

  function Env1(s: System, act: EnvAct): System
    requires EnvEnabled(s, act)
  {
    match act
    case Tick(to) => s.(now := to)
    case Flush => s.(queues := NO_ENTRIES)
    case DropPush(route, id) => s.(hands := s.hands.Take(route, id))
  }

  // ---- Runs ----

  predicate Enabled(cfg: Config, s: System, step: Step) {
    match step
    case Work(w, act) => WorkEnabled(cfg, s, w, act)
    case Daemon(act) => DaemonEnabled(s, act)
    case Client(act) => ClientEnabled(cfg, s, act)
    case Env(act) => EnvEnabled(s, act)
  }

  ghost function Apply(cfg: Config, s: System, step: Step): System
    requires Enabled(cfg, s, step)
  {
    match step
    case Work(w, act) => Work1(cfg, s, w, act)
    case Daemon(act) => Daemon1(cfg, s, act)
    case Client(act) => Client1(cfg, s, act)
    case Env(act) => Env1(s, act)
  }

  /** ss[0], ss[1], ... are the states of a run that takes the given steps. */
  ghost predicate Run(cfg: Config, ss: seq<System>, steps: seq<Step>) {
    && |ss| == |steps| + 1
    && forall i {:trigger steps[i]} :: 0 <= i < |steps| ==>
          Enabled(cfg, ss[i], steps[i]) && ss[i + 1] == Apply(cfg, ss[i], steps[i])
  }

  /** A worker gives up on the next occurrence although its time can be computed. */
  predicate NeedlessSkip(cfg: Config, s: System, step: Step) {
    && step.Work? && step.act.SkipSuccession? && step.w in s.procs && s.procs[step.w].phase.Finishing?
    && NextRun(cfg, s, s.procs[step.w].phase.id).Ok?
  }

  /** From k on nobody does; the insertion of the successor never fails. */
  ghost predicate Careful(cfg: Config, ss: seq<System>, steps: seq<Step>, k: nat)
    requires |ss| == |steps| + 1
  {
    forall i {:trigger steps[i]} :: k <= i < |steps| ==> !NeedlessSkip(cfg, ss[i], steps[i])
  }

  // ---- Rows persist ----

  /** Nothing written at insertion is ever changed, no row ever disappears, and the clock never runs back. */
  predicate Persists(s: System, s': System, id: JobId) {
    && s'.now >= s.now
    && (id in s.tables.jobs ==>
          && id in s'.tables.jobs
          && s'.tables.jobs[id].spec == s.tables.jobs[id].spec
          && s'.tables.jobs[id].scheduledFor == s.tables.jobs[id].scheduledFor)
  }

  lemma WorkPersists(cfg: Config, s: System, w: WorkerId, act: WorkerAct, id: JobId)
    requires WorkEnabled(cfg, s, w, act)
    ensures Persists(s, Work1(cfg, s, w, act), id)
  {}

  lemma DaemonPersists(cfg: Config, s: System, act: DaemonAct, id: JobId)
    requires DaemonEnabled(s, act)
    ensures Persists(s, Daemon1(cfg, s, act), id)
  {}

  lemma ClientPersists(cfg: Config, s: System, act: ClientAct, id: JobId)
    requires ClientEnabled(cfg, s, act)
    ensures Persists(s, Client1(cfg, s, act), id)
  {}

  lemma RowsPersist(cfg: Config, s: System, step: Step, id: JobId)
    requires Enabled(cfg, s, step)
    ensures Persists(s, Apply(cfg, s, step), id)
  {
    match step
    case Work(w, act) => WorkPersists(cfg, s, w, act, id);
    case Daemon(act) => DaemonPersists(cfg, s, act, id);
    case Client(act) => ClientPersists(cfg, s, act, id);
    case Env(act) =>
  }

  lemma {:induction false} SpecStays(cfg: Config, ss: seq<System>, steps: seq<Step>, i: nat, j: nat, id: JobId)
    requires Run(cfg, ss, steps) && i <= j < |ss| && id in ss[i].tables.jobs
    ensures id in ss[j].tables.jobs && ss[j].tables.jobs[id].spec == ss[i].tables.jobs[id].spec
    decreases j
  {
    if i < j {
      SpecStays(cfg, ss, steps, i, j - 1, id);
      RowsPersist(cfg, ss[j - 1], steps[j - 1], id);
    }
  }
}
