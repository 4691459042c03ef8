/** Straight-line code of a process as a run of the protocol. */
module Traces {
  import opened Domain
  import opened Protocol

  ghost predicate Path(cfg: Config, ss: seq<System>, steps: seq<Step>, s: System, t: System) {
    Run(cfg, ss, steps) && ss[0] == s && ss[|steps|] == t && Careful(cfg, ss, steps, 0)
  }

  /** From s the steps, each enabled when it is taken, lead to t; no succession is skipped that could be made. */
  ghost predicate Reaches(cfg: Config, s: System, steps: seq<Step>, t: System) {
    exists ss :: Path(cfg, ss, steps, s, t)
  }

  lemma ReachesItself(cfg: Config, s: System)
    ensures Reaches(cfg, s, [], s)
  {
    assert Path(cfg, [s], [], s, s);
  }

  /** The run can be extended by one enabled step. */
  lemma Extend(cfg: Config, ss: seq<System>, steps: seq<Step>, step: Step) returns (ss': seq<System>, steps': seq<Step>)
    requires Run(cfg, ss, steps) && Enabled(cfg, ss[|steps|], step)
    ensures Run(cfg, ss', steps') && ss'[0] == ss[0] && |steps'| == |steps| + 1
    ensures ss' == ss + [Apply(cfg, ss[|steps|], step)] && steps' == steps + [step]
  {
    ss', steps' := ss + [Apply(cfg, ss[|steps|], step)], steps + [step];
  }

  lemma Next(cfg: Config, s: System, steps: seq<Step>, t: System, step: Step)
    requires Reaches(cfg, s, steps, t) && Enabled(cfg, t, step) && !NeedlessSkip(cfg, t, step)
    ensures Reaches(cfg, s, steps + [step], Apply(cfg, t, step))
  {
    var ss :| Path(cfg, ss, steps, s, t);
    var ss', steps' := Extend(cfg, ss, steps, step);
    forall i {:trigger steps'[i]} | 0 <= i < |steps'| ensures !NeedlessSkip(cfg, ss'[i], steps'[i]) {
      if i < |steps| {
        assert steps'[i] == steps[i] && ss'[i] == ss[i];
      }
    }
    assert Path(cfg, ss', steps + [step], s, Apply(cfg, t, step));
  }

  lemma OneMore(cfg: Config, s: System, steps: seq<Step>, t: System, step: Step) returns (more: seq<Step>, u: System)
    requires Reaches(cfg, s, steps, t) && Enabled(cfg, t, step) && !NeedlessSkip(cfg, t, step)
    ensures Reaches(cfg, s, more, u) && u == Apply(cfg, t, step) && more == steps + [step]
  {
    Next(cfg, s, steps, t, step);
    more, u := steps + [step], Apply(cfg, t, step);
  }

  lemma First(cfg: Config, s: System, step: Step) returns (steps: seq<Step>, t: System)
    requires Enabled(cfg, s, step) && !NeedlessSkip(cfg, s, step)
    ensures Reaches(cfg, s, steps, t) && t == Apply(cfg, s, step) && steps == [step]
  {
    ReachesItself(cfg, s);
    steps, t := OneMore(cfg, s, [], s, step);
  }

  /** One run after another that starts where it ends. */
  function Joined(ss: seq<System>, back: seq<System>): (longer: seq<System>)
    requires ss != [] && back != [] && back[0] == ss[|ss| - 1]
    ensures |longer| == |ss| + |back| - 1
    ensures forall i :: 0 <= i < |ss| ==> longer[i] == ss[i]
    ensures forall i :: 0 <= i < |back| ==> longer[|ss| - 1 + i] == back[i]
  {
    ss + back[1..]
  }

  ghost predicate TakesStep(cfg: Config, s: System, step: Step, s': System) {
    Enabled(cfg, s, step) && s' == Apply(cfg, s, step)
  }

  lemma RunsJoin(cfg: Config, ss: seq<System>, steps: seq<Step>, back: seq<System>, more: seq<Step>)
    requires Run(cfg, ss, steps) && Run(cfg, back, more) && back[0] == ss[|steps|]
    ensures Run(cfg, Joined(ss, back), steps + more)
  {
    var longer, all := Joined(ss, back), steps + more;
    forall i | 0 <= i < |all| ensures TakesStep(cfg, longer[i], all[i], longer[i + 1]) {
      if i < |steps| {
        assert all[i] == steps[i] && TakesStep(cfg, ss[i], steps[i], ss[i + 1]);
      } else {
        var j := i - |steps|;
        assert all[i] == more[j] && TakesStep(cfg, back[j], more[j], back[j + 1]);
      }
    }
  }

  lemma CareJoins(cfg: Config, ss: seq<System>, steps: seq<Step>, back: seq<System>, more: seq<Step>, k: nat)
    requires |ss| == |steps| + 1 && |back| == |more| + 1 && back[0] == ss[|steps|] && k <= |steps|
    requires Careful(cfg, ss, steps, k) && Careful(cfg, back, more, 0)
    ensures Careful(cfg, Joined(ss, back), steps + more, k)
  {
    var longer, all := Joined(ss, back), steps + more;
    forall i {:trigger all[i]} | k <= i < |all| ensures !NeedlessSkip(cfg, longer[i], all[i]) {
      if i < |steps| {
        assert all[i] == steps[i] && longer[i] == ss[i];
      } else {
        assert all[i] == more[i - |steps|] && longer[i] == back[i - |steps|];
      }
    }
  }

  lemma Through(cfg: Config, s: System, a: seq<Step>, t: System, b: seq<Step>, u: System)
    requires Reaches(cfg, s, a, t) && Reaches(cfg, t, b, u)
    ensures Reaches(cfg, s, a + b, u)
  {
    var front :| Path(cfg, front, a, s, t);
    var back :| Path(cfg, back, b, t, u);
    RunsJoin(cfg, front, a, back, b);
    CareJoins(cfg, front, a, back, b, 0);
    assert Path(cfg, Joined(front, back), a + b, s, u);
  }

  /**
   Process code that starts where a run has got to makes the run longer, so every theorem about runs covers it;
   it skips no succession that could be made, so it covers the theorems about recurrence as well.
   */
  lemma Continues(cfg: Config, ss: seq<System>, steps: seq<Step>, more: seq<Step>, t: System)
    returns (longer: seq<System>)
    requires Run(cfg, ss, steps) && Reaches(cfg, ss[|steps|], more, t)
    ensures Run(cfg, longer, steps + more) && longer[0] == ss[0] && longer[|steps + more|] == t
    ensures ss <= longer && Careful(cfg, longer, steps + more, |steps|)
  {
    var back :| Path(cfg, back, more, ss[|steps|], t);
    RunsJoin(cfg, ss, steps, back, more);
    CareJoins(cfg, ss, steps, back, more, |steps|);
    longer := Joined(ss, back);
  }
}
