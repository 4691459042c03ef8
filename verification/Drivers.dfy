/**
 Termination as a driver sees it: whoever keeps the system working, round after round, brings every job to a
 final status, whatever the handlers do and whichever workers crash meanwhile.
 */
module Drivers {
  import opened Domain
  import opened Protocol
  import opened Traces
  import opened Ownership
  import opened References
  import opened Lifecycle
  import opened Termination
  import opened Progress

  // ---- Rounds ----

  /** The step does work on some job, or the environment kills a worker. */
  ghost predicate Counts(cfg: Config, s: System, step: Step) {
    Productive(cfg, s, step) || IsCrash(step)
  }

  /** Between a and b some work was done, or a crash got in the way; anything else may happen besides. */
  ghost predicate Round(cfg: Config, ss: seq<System>, steps: seq<Step>, a: nat, b: nat)
    requires |ss| == |steps| + 1
  {
    a < b <= |steps| && exists i {:trigger steps[i]} :: a <= i < b && Counts(cfg, ss[i], steps[i])
  }

  ghost predicate CutAt(cfg: Config, ss: seq<System>, steps: seq<Step>, cuts: seq<nat>, j: nat)
    requires |ss| == |steps| + 1 && 0 < j < |cuts| && forall i :: 0 <= i < |cuts| ==> cuts[i] <= |steps|
  {
    cuts[j - 1] <= cuts[j] && (AllFinal(ss[cuts[j - 1]]) || Round(cfg, ss, steps, cuts[j - 1], cuts[j]))
  }

  /** The run from cuts[0] on, cut into rounds for as long as a job is unfinished. */
  ghost predicate Driven(cfg: Config, ss: seq<System>, steps: seq<Step>, cuts: seq<nat>) {
    && cuts != [] && ClosedFrom(cfg, ss, steps, cuts[0])
    && (forall j :: 0 <= j < |cuts| ==> cuts[j] <= |steps|)
    && (forall j :: 0 < j < |cuts| ==> CutAt(cfg, ss, steps, cuts, j))
  }

  ghost function Events(cfg: Config, ss: seq<System>, steps: seq<Step>, k: nat, n: nat): nat
    requires |ss| == |steps| + 1 && k <= n < |ss|
  {
    WorkDone(cfg, ss, steps, k, n) + Crashes(steps, k, n)
  }

  lemma {:induction false} EventsGrow(cfg: Config, ss: seq<System>, steps: seq<Step>, k: nat, a: nat, b: nat)
    requires |ss| == |steps| + 1 && k <= a <= b < |ss|
    ensures Events(cfg, ss, steps, k, a) <= Events(cfg, ss, steps, k, b)
    decreases b
  {
    if a < b {
      EventsGrow(cfg, ss, steps, k, a, b - 1);
    }
  }

  lemma EventAt(cfg: Config, ss: seq<System>, steps: seq<Step>, k: nat, i: nat)
    requires |ss| == |steps| + 1 && k <= i < |steps| && Counts(cfg, ss[i], steps[i])
    ensures Events(cfg, ss, steps, k, i) < Events(cfg, ss, steps, k, i + 1)
  {}

  lemma RoundIsEvent(cfg: Config, ss: seq<System>, steps: seq<Step>, k: nat, a: nat, b: nat)
    requires |ss| == |steps| + 1 && k <= a < b < |ss| && Round(cfg, ss, steps, a, b)
    ensures Events(cfg, ss, steps, k, a) < Events(cfg, ss, steps, k, b)
  {
    var i :| a <= i < b && Counts(cfg, ss[i], steps[i]);
    EventsGrow(cfg, ss, steps, k, a, i);
    EventAt(cfg, ss, steps, k, i);
    EventsGrow(cfg, ss, steps, k, i + 1, b);
  }

  // ---- Finished jobs stay finished ----

  lemma {:induction false} FinalStays(cfg: Config, ss: seq<System>, steps: seq<Step>, a: nat, b: nat)
    requires ClosedFrom(cfg, ss, steps, a) && a <= b < |ss| && AllFinal(ss[a])
    ensures AllFinal(ss[b])
    decreases b
  {
    if a < b {
      FinalStays(cfg, ss, steps, a, b - 1);
      FinalStep(cfg, ss, steps, b - 1);
    }
  }

  lemma FinalStep(cfg: Config, ss: seq<System>, steps: seq<Step>, n: nat)
    requires LoyalRun(cfg, ss, steps) && n < |steps| && Internal(steps[n]) && AllFinal(ss[n])
    ensures AllFinal(ss[n + 1])
  {
    var s, s', step := ss[n], ss[n + 1], steps[n];
    NoNewRows(cfg, s, step);
    forall id | id in s'.tables.jobs ensures Final(s'.tables.jobs[id].status) {
      StepConforms(cfg, ss, steps, n, id);
      assert Follows(step, s.tables.jobs[id].status, s'.tables.jobs[id].status);
    }
  }

  lemma ClosedLater(cfg: Config, ss: seq<System>, steps: seq<Step>, k: nat, n: nat)
    requires ClosedFrom(cfg, ss, steps, k) && k <= n < |ss|
    ensures ClosedFrom(cfg, ss, steps, n)
  {}

  lemma {:induction false} RoundsAreEvents(cfg: Config, ss: seq<System>, steps: seq<Step>, cuts: seq<nat>, j: nat)
    requires Driven(cfg, ss, steps, cuts) && j < |cuts| && !AllFinal(ss[cuts[j]])
    ensures cuts[0] <= cuts[j] && j <= Events(cfg, ss, steps, cuts[0], cuts[j])
  {
    if j > 0 {
      var a, b := cuts[j - 1], cuts[j];
      assert CutAt(cfg, ss, steps, cuts, j);
      CutsAscend(cfg, ss, steps, cuts, j - 1);
      if AllFinal(ss[a]) {
        ClosedLater(cfg, ss, steps, cuts[0], a);
        FinalStays(cfg, ss, steps, a, b);
      } else {
        RoundsAreEvents(cfg, ss, steps, cuts, j - 1);
        RoundIsEvent(cfg, ss, steps, cuts[0], a, b);
      }
    }
  }

  lemma {:induction false} CutsAscend(cfg: Config, ss: seq<System>, steps: seq<Step>, cuts: seq<nat>, j: nat)
    requires Driven(cfg, ss, steps, cuts) && j < |cuts|
    ensures cuts[0] <= cuts[j]
  {
    if j > 0 {
      CutsAscend(cfg, ss, steps, cuts, j - 1);
      assert CutAt(cfg, ss, steps, cuts, j);
    }
  }

  /**
   Every strategy that keeps making rounds finishes every job: after more rounds than the potential at the start
   plus eleven for each crash, nothing is unfinished, and it stays so.
   */
  lemma EveryDriverFinishes(cfg: Config, ss: seq<System>, steps: seq<Step>, cuts: seq<nat>)
    requires Driven(cfg, ss, steps, cuts)
    requires var k, n := cuts[0], cuts[|cuts| - 1];
             k <= n && |cuts| - 1 > TotalPotential(ss[k]) + 11 * Crashes(steps, k, n)
    ensures AllFinal(ss[cuts[|cuts| - 1]])
    ensures forall m :: cuts[|cuts| - 1] <= m < |ss| ==> AllFinal(ss[m])
  {
    var k, n := cuts[0], cuts[|cuts| - 1];
    if !AllFinal(ss[n]) {
      RoundsAreEvents(cfg, ss, steps, cuts, |cuts| - 1);
      WorkIsBounded(cfg, ss, steps, k, n);
    }
    ClosedLater(cfg, ss, steps, k, n);
    forall m | n <= m < |ss| ensures AllFinal(ss[m]) {
      FinalStays(cfg, ss, steps, n, m);
    }
  }

  // ---- A strategy that always finds its next round ----

  /** The longer run begins with the given one, and what it adds is internal, crashes nobody and obeys the handlers. */
  ghost predicate Prolongs(cfg: Config, h: Handlers, ss: seq<System>, steps: seq<Step>, longer: seq<System>,
                           all: seq<Step>) {
    && LoyalRun(cfg, longer, all) && |ss| == |steps| + 1 && steps <= all && ss <= longer
    && forall i {:trigger all[i]} :: |steps| <= i < |all| ==>
          Internal(all[i]) && !IsCrash(all[i]) && Obeys(h, longer[i], all[i])
  }

  lemma ProlongsThrough(cfg: Config, h: Handlers, ss: seq<System>, steps: seq<Step>, mid: seq<System>, some: seq<Step>,
                        longer: seq<System>, all: seq<Step>)
    requires Prolongs(cfg, h, ss, steps, mid, some) && Prolongs(cfg, h, mid, some, longer, all)
    ensures Prolongs(cfg, h, ss, steps, longer, all)
  {
    forall i | |steps| <= i < |all| ensures Internal(all[i]) && !IsCrash(all[i]) && Obeys(h, longer[i], all[i]) {
      if i < |some| {
        assert all[i] == some[i] && longer[i] == mid[i];
      }
    }
  }

  lemma ProlongsOnce(cfg: Config, h: Handlers, ss: seq<System>, steps: seq<Step>, step: Step)
    returns (next: seq<System>)
    requires LoyalRun(cfg, ss, steps) && Takes(cfg, h, ss[|steps|], step)
    ensures Prolongs(cfg, h, ss, steps, next, steps + [step]) && next[|steps| + 1] == Apply(cfg, ss[|steps|], step)
  {
    var taken;
    next, taken := Extend(cfg, ss, steps, step);
    OneMoreIsLoyal(cfg, h, ss, steps, step, next);
  }

  lemma {:induction false} LeadsProlong(cfg: Config, h: Handlers, ss: seq<System>, steps: seq<Step>, more: seq<Step>,
                                        t: System)
    returns (longer: seq<System>)
    requires LoyalRun(cfg, ss, steps) && Leads(cfg, h, ss[|steps|], more, t)
    ensures Prolongs(cfg, h, ss, steps, longer, steps + more) && longer[|steps + more|] == t
    decreases |more|
  {
    if more == [] {
      longer := ss;
      assert steps + more == steps;
    } else {
      var next := ProlongsOnce(cfg, h, ss, steps, more[0]);
      longer := LeadsProlong(cfg, h, next, steps + [more[0]], more[1..], t);
      assert steps + [more[0]] + more[1..] == steps + more;
      ProlongsThrough(cfg, h, ss, steps, next, steps + [more[0]], longer, steps + more);
    }
  }

  lemma OneMoreIsLoyal(cfg: Config, h: Handlers, ss: seq<System>, steps: seq<Step>, step: Step, next: seq<System>)
    requires LoyalRun(cfg, ss, steps) && Takes(cfg, h, ss[|steps|], step)
    requires next == ss + [Apply(cfg, ss[|steps|], step)] && Run(cfg, next, steps + [step])
    ensures LoyalRun(cfg, next, steps + [step])
  {
    assert next[0] == ss[0];
    forall i | 0 <= i < |next| ensures Timely(cfg, next[i]) {
      if i < |ss| {
        assert next[i] == ss[i];
      }
    }
    forall i | 0 <= i < |steps + [step]| ensures Loyal(next[i], (steps + [step])[i]) {
      if i < |steps| {
        assert (steps + [step])[i] == steps[i] && next[i] == ss[i];
      }
    }
  }

  /** The next round: work if any work is possible, otherwise wait for the first moment at which some is. */
  ghost predicate Strategy(cfg: Config, h: Handlers, s: System, more: seq<Step>) {
    && more != [] && Patient(more[..|more| - 1])
    && (|more| > 1 ==> !exists step :: CanWork(cfg, h, s, step))
  }

  /** While a job is unfinished and a worker lives, the strategy has a next round, which obeys the handlers. */
  lemma NextRound(cfg: Config, h: Handlers, ss: seq<System>, steps: seq<Step>, w: WorkerId)
    returns (longer: seq<System>, more: seq<Step>)
    requires LoyalRun(cfg, ss, steps) && cfg.beat > 0.0 && FairDraws(h)
    requires Alert(ss[|steps|], w) && !AllFinal(ss[|steps|])
    ensures Prolongs(cfg, h, ss, steps, longer, steps + more)
    ensures Strategy(cfg, h, ss[|steps|], more) && Round(cfg, longer, steps + more, |steps|, |steps + more|)
    ensures Alert(longer[|steps + more|], w)
  {
    RunSettles(cfg, ss, steps, |steps|);
    var waits, u, step := PlanRound(cfg, h, ss[|steps|], w);
    more := waits + [step];
    PlanIsStrategy(cfg, h, ss[|steps|], waits, step);
    longer := PlayRound(cfg, h, ss, steps, waits, u, step);
    WorkerStays(cfg, u, step, w);
    LastStepCounts(cfg, longer, steps + more, |steps|);
  }

  lemma PlanIsStrategy(cfg: Config, h: Handlers, s: System, waits: seq<Step>, step: Step)
    requires Patient(waits) && (waits != [] ==> !exists now :: CanWork(cfg, h, s, now))
    ensures Strategy(cfg, h, s, waits + [step])
  {
    assert (waits + [step])[..|waits|] == waits;
  }

  lemma LastStepCounts(cfg: Config, ss: seq<System>, steps: seq<Step>, a: nat)
    requires |ss| == |steps| + 1 && a < |steps| && Productive(cfg, ss[|steps| - 1], steps[|steps| - 1])
    ensures Round(cfg, ss, steps, a, |steps|)
  {
    assert Counts(cfg, ss[|steps| - 1], steps[|steps| - 1]);
  }

  lemma StepsJoin(steps: seq<Step>, waits: seq<Step>, step: Step)
    ensures var all := steps + (waits + [step]);
            all == steps + waits + [step] && |all| == |steps + waits| + 1 && all[|all| - 1] == step
  {}

  lemma PlayRound(cfg: Config, h: Handlers, ss: seq<System>, steps: seq<Step>, waits: seq<Step>, u: System, step: Step)
    returns (longer: seq<System>)
    requires LoyalRun(cfg, ss, steps) && Leads(cfg, h, ss[|steps|], waits, u) && CanWork(cfg, h, u, step)
    ensures var all := steps + (waits + [step]);
            && Prolongs(cfg, h, ss, steps, longer, all)
            && longer[|all| - 1] == u && all[|all| - 1] == step && longer[|all|] == Apply(cfg, u, step)
  {
    var middle := LeadsProlong(cfg, h, ss, steps, waits, u);
    StepsJoin(steps, waits, step);
    longer := PlayStep(cfg, h, ss, steps, middle, steps + waits, u, step);
  }

  lemma PlayStep(cfg: Config, h: Handlers, ss: seq<System>, steps: seq<Step>, middle: seq<System>, taken: seq<Step>,
                 u: System, step: Step)
    returns (longer: seq<System>)
    requires Prolongs(cfg, h, ss, steps, middle, taken) && middle[|taken|] == u && CanWork(cfg, h, u, step)
    ensures Prolongs(cfg, h, ss, steps, longer, taken + [step])
    ensures longer[|taken|] == u && longer[|taken| + 1] == Apply(cfg, u, step)
  {
    longer := ProlongsOnce(cfg, h, middle, taken, step);
    ProlongsThrough(cfg, h, ss, steps, middle, taken, longer, taken + [step]);
  }

  lemma PlanRound(cfg: Config, h: Handlers, s: System, w: WorkerId) returns (waits: seq<Step>, u: System, step: Step)
    requires Sane(cfg) && FairDraws(h) && cfg.beat > 0.0 && Timely(cfg, s) && Settling(s) && Alert(s, w) && !AllFinal(s)
    ensures Leads(cfg, h, s, waits, u) && CanWork(cfg, h, u, step) && Patient(waits) && Alert(u, w)
    ensures waits != [] ==> !exists step :: CanWork(cfg, h, s, step)
  {
    if now :| CanWork(cfg, h, s, now) {
      waits, u, step := [], s, now;
    } else {
      var id :| id in s.tables.jobs && !Final(s.tables.jobs[id].status);
      waits, u, step := UnfinishedCanProgress(cfg, h, s, w, id);
    }
  }
}
