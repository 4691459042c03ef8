/** The processing list against the workers that hold its entries, although entries are removed by value. */
module Processing {
  import opened Domain
  import opened Queues
  import opened Protocol
  import opened Frames
  import opened Tallies

  /** From reservation to acknowledgement; a crashed worker holds its entry for ever. */
  predicate Holds(phase: Phase, id: JobId) {
    match phase
    case Idle => false
    case Carrying(_) => false
    case Announcing(x, _) => x == id
    case _ => phase.id == id
  }

  function HoldWeight(p: Proc, id: JobId): int {
    if Holds(p.phase, id) then 1 else 0
  }

  ghost function Holders(procs: map<WorkerId, Proc>, id: JobId): int {
    Tally(procs, p => HoldWeight(p, id))
  }

  ghost predicate Covered(s: System, id: JobId) {
    Occurrences(s.queues.processing, id) <= Holders(s.procs, id)
  }

  ghost predicate Matched(s: System, id: JobId) {
    Occurrences(s.queues.processing, id) == Holders(s.procs, id)
  }

  lemma HoldersUpdate(procs: map<WorkerId, Proc>, w: WorkerId, p: Proc, id: JobId)
    ensures Holders(procs[w := p], id) == Holders(procs, id) - (if w in procs then HoldWeight(procs[w],
        id) else 0) + HoldWeight(p, id)
  {
    TallyUpdate(procs, w, p, (q: Proc) => HoldWeight(q, id));
  }

  lemma HoldersBound(procs: map<WorkerId, Proc>, w: WorkerId, id: JobId)
    requires w in procs
    ensures HoldWeight(procs[w], id) <= Holders(procs, id)
  {
    TallyBounds(procs, (q: Proc) => HoldWeight(q, id));
  }

  lemma StashCounts(q: Queues, x: JobId, id: JobId)
    ensures Occurrences(Stash(q, x).processing, id) == Occurrences(q.processing, id) + if x == id then 1 else 0
  {}

  lemma AckCounts(q: Queues, x: JobId, id: JobId)
    ensures var n := Occurrences(q.processing, id);
            Occurrences(Ack(q, x).processing, id) == if x == id && n > 0 then n - 1 else n
  {}

  lemma ReserveCounts(q: Queues, tier: Tier, id: JobId)
    requires q.Lane(tier) != []
    ensures Pop(q, tier).processing == q.processing
    ensures Occurrences(Reserve(q, tier).processing, id) == Occurrences(q.processing, id) + if Last(q.Lane(tier))
         == id then 1 else 0
  {
    StashCounts(Pop(q, tier), Last(q.Lane(tier)), id);
  }

  lemma AckCovers(s: System, s': System, w: WorkerId, x: JobId, id: JobId)
    requires w in s.procs && s.procs[w].phase == Settled(x) && Covered(s, id)
    requires s'.queues == Ack(s.queues, x) && s'.procs == To(s, w, Idle)
    ensures Covered(s', id) && (Matched(s, id) ==> Matched(s', id))
  {
    HoldersUpdate(s.procs, w, s'.procs[w], id);
    HoldersBound(s.procs, w, id);
    AckCounts(s.queues, x, id);
  }

  lemma FetchCovers(s: System, s': System, w: WorkerId, phase: Phase, id: JobId)
    requires w in s.procs && Covered(s, id) && s'.procs == To(s, w, phase)
    requires Occurrences(s'.queues.processing, id) - Occurrences(s.queues.processing, id)
          == HoldWeight(s'.procs[w], id) - HoldWeight(s.procs[w], id)
    ensures Covered(s', id) && (Matched(s, id) ==> Matched(s', id))
  {
    HoldersUpdate(s.procs, w, s'.procs[w], id);
  }

  lemma SameEntries(s: System, s': System, w: WorkerId, id: JobId)
    requires Covered(s, id) && s'.queues.processing == s.queues.processing
    requires s'.procs == s.procs || (w in s'.procs && s'.procs == s.procs[w := s'.procs[w]])
    requires w in s'.procs ==> HoldWeight(s'.procs[w], id) == if w in s.procs then HoldWeight(s.procs[w], id) else 0
    ensures Covered(s', id) && (Matched(s, id) ==> Matched(s', id))
  {
    if s'.procs != s.procs {
      HoldersUpdate(s.procs, w, s'.procs[w], id);
    }
  }

  /** One worker step keeps both the bound and, where it held, the equality. */
  lemma WorkCovers(cfg: Config, s: System, w: WorkerId, act: WorkerAct, id: JobId)
    requires WorkEnabled(cfg, s, w, act) && Covered(s, id)
    ensures Covered(Work1(cfg, s, w, act), id)
    ensures Matched(s, id) ==> Matched(Work1(cfg, s, w, act), id)
  {
    var s' := Work1(cfg, s, w, act);
    if act.AckIt? {
      AckCovers(s, s', w, s.procs[w].phase.id, id);
    } else if act.ReserveFrom? || act.BlockOn? {
      ReserveCounts(s.queues, act.tier, id);
      FetchCovers(s, s', w, s'.procs[w].phase, id);
    } else if act.StashIt? {
      StashCounts(s.queues, s.procs[w].phase.id, id);
      FetchCovers(s, s', w, s'.procs[w].phase, id);
    } else {
      StillHeld(cfg, s, w, act, id);
      SameEntries(s, s', w, id);
    }
  }

  lemma StillHeld(cfg: Config, s: System, w: WorkerId, act: WorkerAct, id: JobId)
    requires WorkEnabled(cfg, s, w, act) && !act.AckIt? && !act.ReserveFrom? && !act.BlockOn? && !act.StashIt?
    ensures var s' := Work1(cfg, s, w, act);
            && s'.queues.processing == s.queues.processing
            && w in s'.procs && s'.procs == s.procs[w := s'.procs[w]]
            && HoldWeight(s'.procs[w], id) == if w in s.procs then HoldWeight(s.procs[w], id) else 0
  {}

  predicate TakesEntries(step: Step) {
    || (step.Daemon? && step.daemon.Push? && step.daemon.route == Unprocess)
    || (step.Env? && step.env.Flush?)
  }

  ghost predicate OnlyTakes(s: System, s': System, step: Step, id: JobId) {
    && s'.procs == s.procs
    && Occurrences(s'.queues.processing, id) <= Occurrences(s.queues.processing, id)
    && (!TakesEntries(step) ==> s'.queues.processing == s.queues.processing)
  }

  lemma PushTakes(s: System, route: Route, x: JobId, id: JobId)
    ensures route != Unprocess ==> PushStep(s, route, x).queues.processing == s.queues.processing
    ensures Occurrences(PushStep(s, route, x).queues.processing, id) <= Occurrences(s.queues.processing, id)
  {
    if route == Unprocess {
      AckCounts(s.queues, x, id);
    }
  }

  lemma DaemonTakes(cfg: Config, s: System, act: DaemonAct, id: JobId)
    requires DaemonEnabled(s, act)
    ensures OnlyTakes(s, Daemon1(cfg, s, act), Daemon(act), id)
  {
    DaemonKeepsProcs(cfg, s, act);
    if act.Push? {
      PushTakes(s, act.route, act.id, id);
    } else if !act.PromoteDue? {
      DaemonKeepsQueues(cfg, s, act);
    }
  }

  lemma SweepKeepsProcessing(q: Queues, x: JobId, place: Place)
    ensures Sweep(q, place, x).processing == q.processing && SweepAll(q, x).processing == q.processing
  {}

  lemma ClientTakes(cfg: Config, s: System, act: ClientAct, id: JobId)
    requires ClientEnabled(cfg, s, act)
    ensures OnlyTakes(s, Client1(cfg, s, act), Client(act), id)
  {
    ClientKeepsClocks(cfg, s, act);
    if act.Cancel? {
      SweepKeepsProcessing(s.queues, act.id, Calendar);
    } else if act.Remove? {
      SweepKeepsProcessing(s.queues, act.id, act.place);
    } else {
      ClientKeepsQueues(cfg, s, act);
    }
  }

  lemma OtherCovers(cfg: Config, s: System, step: Step, id: JobId)
    requires Enabled(cfg, s, step) && !step.Work?
    ensures OnlyTakes(s, Apply(cfg, s, step), step, id)
  {
    match step
    case Daemon(act) => DaemonTakes(cfg, s, act, id);
    case Client(act) => ClientTakes(cfg, s, act, id);
    case Env(act) =>
  }

  /** No list entry without a holder, and no holder without an entry unless requeue_job or a flush took it. */
  lemma {:induction false} ProcessingIsCovered(cfg: Config, ss: seq<System>, steps: seq<Step>, n: nat, id: JobId)
    requires Run(cfg, ss, steps) && Initial(ss[0]) && n < |ss|
    ensures Covered(ss[n], id)
    ensures (forall i :: 0 <= i < n ==> !TakesEntries(steps[i])) ==> Matched(ss[n], id)
  {
    if n == 0 {
      TallyZero(ss[0].procs, (q: Proc) => HoldWeight(q, id));
    } else {
      ProcessingIsCovered(cfg, ss, steps, n - 1, id);
      var s, step := ss[n - 1], steps[n - 1];
      if step.Work? {
        WorkCovers(cfg, s, step.w, step.act, id);
      } else {
        OtherCovers(cfg, s, step, id);
      }
    }
  }

  /** When every worker is idle the list is empty. */
  lemma EmptyAtRest(cfg: Config, ss: seq<System>, steps: seq<Step>, n: nat)
    requires Run(cfg, ss, steps) && Initial(ss[0]) && n < |ss|
    requires forall w :: w in ss[n].procs ==> ss[n].procs[w].phase.Idle?
    ensures ss[n].queues.processing == []
  {
    var s := ss[n];
    assert s.queues.processing != [] ==> s.queues.processing[0] in s.queues.processing;
    forall id ensures id !in s.queues.processing {
      ProcessingIsCovered(cfg, ss, steps, n, id);
      TallyZero(s.procs, (q: Proc) => HoldWeight(q, id));
    }
  }

  /** Whatever is in the list has a holder. */
  lemma EntryHasHolder(cfg: Config, ss: seq<System>, steps: seq<Step>, n: nat, id: JobId) returns (w: WorkerId)
    requires Run(cfg, ss, steps) && Initial(ss[0]) && n < |ss| && id in ss[n].queues.processing
    ensures w in ss[n].procs && Holds(ss[n].procs[w].phase, id)
  {
    var s := ss[n];
    ProcessingIsCovered(cfg, ss, steps, n, id);
    if forall v :: v in s.procs ==> !Holds(s.procs[v].phase, id) {
      TallyZero(s.procs, (q: Proc) => HoldWeight(q, id));
    }
    w :| w in s.procs && Holds(s.procs[w].phase, id);
  }

  // ---- The entries of crashed workers ----

  lemma {:induction false} DeadKeepTheirPhase(cfg: Config, ss: seq<System>, steps: seq<Step>, i: nat, j: nat,
                                              w: WorkerId)
    requires Run(cfg, ss, steps) && i <= j < |ss| && w in ss[i].procs && !ss[i].procs[w].live
    ensures w in ss[j].procs && ss[j].procs[w] == ss[i].procs[w]
    decreases j
  {
    if i < j {
      DeadKeepTheirPhase(cfg, ss, steps, i, j - 1, w);
      StepLeavesTheDead(cfg, ss[j - 1], steps[j - 1], w);
    }
  }

  /** What a crashed worker held stays in the list for ever, unless a requeue or a flush takes it. */
  lemma CrashedEntryStays(cfg: Config, ss: seq<System>, steps: seq<Step>, i: nat, j: nat, w: WorkerId, id: JobId)
    requires Run(cfg, ss, steps) && Initial(ss[0]) && i <= j < |ss|
    requires w in ss[i].procs && !ss[i].procs[w].live && Holds(ss[i].procs[w].phase, id)
    requires forall n :: 0 <= n < j ==> !TakesEntries(steps[n])
    ensures id in ss[j].queues.processing
  {
    DeadKeepTheirPhase(cfg, ss, steps, i, j, w);
    ProcessingIsCovered(cfg, ss, steps, j, id);
    HoldersBound(ss[j].procs, w, id);
  }
}
