/**
 The working strategy against an adversary: rounds of the strategy alternate with moves of somebody who sees
 everything, may crash workers and may do anything else that a loyal run can do.
 */
module Games {
  import opened Domain
  import opened Protocol
  import opened References
  import opened Termination
  import opened Progress
  import opened Drivers

  datatype Transcript = Transcript(states: seq<System>, steps: seq<Step>)
  {
    predicate Whole() {
      |states| == |steps| + 1
    }

    function Now(): System
      requires Whole()
    {
      states[|steps|]
    }
  }

  type Adversary = Transcript -> Transcript

  ghost predicate SomeoneLives(s: System) {
    exists w :: Alert(s, w)
  }

  /** Loyal, without new work from k on, with few crashes since, and with a worker alive. */
  ghost predicate Playable(cfg: Config, r: Transcript, k: nat, crashes: nat) {
    && ClosedFrom(cfg, r.states, r.steps, k) && Crashes(r.steps, k, |r.steps|) <= crashes
    && SomeoneLives(r.Now())
  }

  ghost predicate Extends(r: Transcript, longer: Transcript) {
    r.Whole() && longer.Whole() && r.states <= longer.states && r.steps <= longer.steps
  }

  ghost predicate Answers(cfg: Config, adversary: Adversary, r: Transcript, k: nat, crashes: nat) {
    Playable(cfg, r, k, crashes) ==> Playable(cfg, adversary(r), k, crashes) && Extends(r, adversary(r))
  }

  /** It may do anything as long as it stays within its crashes and leaves a worker alive. */
  ghost predicate Admissible(cfg: Config, adversary: Adversary, k: nat, crashes: nat) {
    forall r :: Answers(cfg, adversary, r, k, crashes)
  }

  /** What the strategy adds is one round of its own, in which nobody leaves for good. */
  ghost predicate PlaysRound(cfg: Config, h: Handlers, r: Transcript, own: Transcript) {
    && Extends(r, own) && Prolongs(cfg, h, r.states, r.steps, own.states, own.steps)
    && Strategy(cfg, h, r.Now(), own.steps[|r.steps|..])
    && Drivers.Round(cfg, own.states, own.steps, |r.steps|, |own.steps|) && SomeoneLives(own.Now())
  }

  /** Unless every job is final, the strategy plays a round and then the adversary moves. */
  ghost predicate Moves(cfg: Config, h: Handlers, adversary: Adversary, r: Transcript, after: Transcript) {
    r.Whole() && !AllFinal(r.Now()) && exists own :: PlaysRound(cfg, h, r, own) && after == adversary(own)
  }

  ghost predicate Turn(cfg: Config, h: Handlers, adversary: Adversary, game: seq<Transcript>, i: nat)
    requires 0 < i < |game|
  {
    Moves(cfg, h, adversary, game[i - 1], game[i])
  }

  /** The stages of a game that starts where a loyal run has got to. */
  ghost predicate Game(cfg: Config, h: Handlers, adversary: Adversary, crashes: nat, game: seq<Transcript>) {
    && game != [] && game[0].Whole() && Playable(cfg, game[0], |game[0].steps|, crashes)
    && Admissible(cfg, adversary, |game[0].steps|, crashes)
    && forall i :: 0 < i < |game| ==> Turn(cfg, h, adversary, game, i)
  }

  // ---- One move ----

  lemma {:induction false} SameCrashes(a: seq<Step>, b: seq<Step>, k: nat, n: nat)
    requires k <= n <= |a| && a <= b
    ensures Crashes(a, k, n) == Crashes(b, k, n)
  {
    if k < n {
      SameCrashes(a, b, k, n - 1);
    }
  }

  lemma {:induction false} NoCrashesAdded(steps: seq<Step>, k: nat, m: nat, n: nat)
    requires k <= m <= n <= |steps| && forall i :: m <= i < n ==> !IsCrash(steps[i])
    ensures Crashes(steps, k, n) == Crashes(steps, k, m)
    decreases n
  {
    if m < n {
      NoCrashesAdded(steps, k, m, n - 1);
    }
  }

  lemma RoundIsPlayable(cfg: Config, h: Handlers, r: Transcript, own: Transcript, k: nat, crashes: nat)
    requires Playable(cfg, r, k, crashes) && PlaysRound(cfg, h, r, own)
    ensures Playable(cfg, own, k, crashes)
  {
    SameCrashes(r.steps, own.steps, k, |r.steps|);
    NoCrashesAdded(own.steps, k, |r.steps|, |own.steps|);
    forall i | k <= i < |own.steps| ensures Internal(own.steps[i]) {
      if i < |r.steps| {
        assert own.steps[i] == r.steps[i];
      }
    }
  }

  /** After the move the game can go on, and a round has been made. */
  lemma MoveKeeps(cfg: Config, h: Handlers, adversary: Adversary, r: Transcript, after: Transcript, k: nat,
                  crashes: nat)
    requires Playable(cfg, r, k, crashes) && Admissible(cfg, adversary, k, crashes)
    requires Moves(cfg, h, adversary, r, after)
    ensures Playable(cfg, after, k, crashes) && Extends(r, after)
    ensures Drivers.Round(cfg, after.states, after.steps, |r.steps|, |after.steps|)
  {
    var own :| PlaysRound(cfg, h, r, own) && after == adversary(own);
    RoundIsPlayable(cfg, h, r, own, k, crashes);
    assert Answers(cfg, adversary, own, k, crashes);
    LongerRound(cfg, own, after, |r.steps|, |own.steps|);
  }

  lemma LongerRound(cfg: Config, r: Transcript, longer: Transcript, a: nat, b: nat)
    requires Extends(r, longer) && Drivers.Round(cfg, r.states, r.steps, a, b)
    ensures Drivers.Round(cfg, longer.states, longer.steps, a, b)
    ensures Drivers.Round(cfg, longer.states, longer.steps, a, |longer.steps|)
  {
    var i :| a <= i < b && Counts(cfg, r.states[i], r.steps[i]);
    assert longer.states[i] == r.states[i] && longer.steps[i] == r.steps[i];
  }

  lemma OwnRound(cfg: Config, h: Handlers, r: Transcript, own: Transcript, more: seq<Step>, w: WorkerId)
    requires r.Whole() && own.steps == r.steps + more && own.Whole()
    requires Prolongs(cfg, h, r.states, r.steps, own.states, own.steps) && Strategy(cfg, h, r.Now(), more)
    requires Drivers.Round(cfg, own.states, own.steps, |r.steps|, |own.steps|) && Alert(own.Now(), w)
    ensures PlaysRound(cfg, h, r, own)
  {
    assert own.steps[|r.steps|..] == more;
  }

  lemma OwnMove(cfg: Config, h: Handlers, r: Transcript, w: WorkerId) returns (own: Transcript)
    requires r.Whole() && LoyalRun(cfg, r.states, r.steps) && Alert(r.Now(), w) && !AllFinal(r.Now())
    requires cfg.beat > 0.0 && FairDraws(h)
    ensures PlaysRound(cfg, h, r, own)
  {
    var longer, more := NextRound(cfg, h, r.states, r.steps, w);
    own := Transcript(longer, r.steps + more);
    OwnRound(cfg, h, r, own, more, w);
  }

  /** While the game is not won the strategy has its move. */
  lemma MoveExists(cfg: Config, h: Handlers, adversary: Adversary, r: Transcript, k: nat, crashes: nat)
    returns (after: Transcript)
    requires Playable(cfg, r, k, crashes) && !AllFinal(r.Now()) && cfg.beat > 0.0 && FairDraws(h)
    ensures Moves(cfg, h, adversary, r, after)
  {
    var w :| Alert(r.Now(), w);
    var own := OwnMove(cfg, h, r, w);
    after := adversary(own);
  }

  // ---- A whole game is one driven run ----

  lemma DrivenLonger(cfg: Config, r: Transcript, after: Transcript, cuts: seq<nat>, k: nat, crashes: nat)
    requires Driven(cfg, r.states, r.steps, cuts) && cuts[0] == k && cuts[|cuts| - 1] == |r.steps| && r.Whole()
    requires Extends(r, after) && Playable(cfg, after, k, crashes)
    requires Drivers.Round(cfg, after.states, after.steps, |r.steps|, |after.steps|)
    ensures Driven(cfg, after.states, after.steps, cuts + [|after.steps|])
  {
    var all := cuts + [|after.steps|];
    forall j | 0 < j < |all| ensures CutAt(cfg, after.states, after.steps, all, j) {
      if j < |cuts| {
        assert all[j - 1] == cuts[j - 1] && all[j] == cuts[j] && CutAt(cfg, r.states, r.steps, cuts, j);
        assert after.states[cuts[j - 1]] == r.states[cuts[j - 1]];
        if !AllFinal(r.states[cuts[j - 1]]) {
          LongerRound(cfg, r, after, cuts[j - 1], cuts[j]);
        }
      }
    }
  }

  /** Where a game has got to is a driven run, cut where the strategy was to move. */
  ghost predicate Stage(cfg: Config, first: Transcript, r: Transcript, cuts: seq<nat>, crashes: nat) {
    && Extends(first, r) && Playable(cfg, r, |first.steps|, crashes) && Driven(cfg, r.states, r.steps, cuts)
    && cuts[0] == |first.steps| && cuts[|cuts| - 1] == |r.steps|
  }

  lemma NextStage(cfg: Config, h: Handlers, adversary: Adversary, crashes: nat, first: Transcript, r: Transcript,
                  cuts: seq<nat>, after: Transcript)
    requires Stage(cfg, first, r, cuts, crashes) && Admissible(cfg, adversary, |first.steps|, crashes)
    requires Moves(cfg, h, adversary, r, after)
    ensures Stage(cfg, first, after, cuts + [|after.steps|], crashes)
  {
    MoveKeeps(cfg, h, adversary, r, after, |first.steps|, crashes);
    DrivenLonger(cfg, r, after, cuts, |first.steps|, crashes);
  }

  lemma FirstStage(cfg: Config, first: Transcript, crashes: nat)
    requires first.Whole() && Playable(cfg, first, |first.steps|, crashes)
    ensures Stage(cfg, first, first, [|first.steps|], crashes)
  {}

  lemma {:induction false} GameIsDriven(cfg: Config, h: Handlers, adversary: Adversary, crashes: nat,
                                        game: seq<Transcript>, n: nat)
    returns (cuts: seq<nat>)
    requires Game(cfg, h, adversary, crashes, game) && n < |game|
    ensures |cuts| == n + 1 && Stage(cfg, game[0], game[n], cuts, crashes)
    decreases n
  {
    if n == 0 {
      FirstStage(cfg, game[0], crashes);
      cuts := [|game[0].steps|];
    } else {
      var before := GameIsDriven(cfg, h, adversary, crashes, game, n - 1);
      cuts := before + [|game[n].steps|];
      assert Turn(cfg, h, adversary, game, n);
      NextStage(cfg, h, adversary, crashes, game[0], game[n - 1], before, game[n]);
    }
  }

  ghost function Bound(first: Transcript, crashes: nat): int
    requires first.Whole()
  {
    TotalPotential(first.Now()) + 11 * crashes + 1
  }

  lemma LongStageIsFinal(cfg: Config, first: Transcript, r: Transcript, cuts: seq<nat>, crashes: nat)
    requires Stage(cfg, first, r, cuts, crashes) && |cuts| > Bound(first, crashes)
    ensures AllFinal(r.Now())
  {
    assert r.states[cuts[0]] == first.Now();
    EveryDriverFinishes(cfg, r.states, r.steps, cuts);
  }

  /** No game lasts longer than the potential at its start and eleven moves for each crash. */
  lemma GamesEnd(cfg: Config, h: Handlers, adversary: Adversary, crashes: nat, game: seq<Transcript>)
    requires Game(cfg, h, adversary, crashes, game)
    ensures |game| - 1 <= Bound(game[0], crashes) || |game| == 1
  {
    if |game| > 1 {
      var n := |game| - 2;
      var cuts := GameIsDriven(cfg, h, adversary, crashes, game, n);
      assert Turn(cfg, h, adversary, game, n + 1);
      if |cuts| > Bound(game[0], crashes) {
        LongStageIsFinal(cfg, game[0], game[n], cuts, crashes);
      }
    }
  }

  lemma GameAppends(cfg: Config, h: Handlers, adversary: Adversary, crashes: nat, game: seq<Transcript>,
                    after: Transcript)
    requires Game(cfg, h, adversary, crashes, game) && Moves(cfg, h, adversary, game[|game| - 1], after)
    ensures Game(cfg, h, adversary, crashes, game + [after])
  {
    var next := game + [after];
    assert next[0] == game[0];
    forall i | 0 < i < |next| ensures Turn(cfg, h, adversary, next, i) {
      if i < |game| {
        assert Turn(cfg, h, adversary, game, i);
        assert next[i - 1] == game[i - 1] && next[i] == game[i];
      }
    }
  }

  lemma GameGoesOn(cfg: Config, h: Handlers, adversary: Adversary, crashes: nat, game: seq<Transcript>,
                   cuts: seq<nat>)
    returns (next: seq<Transcript>)
    requires Game(cfg, h, adversary, crashes, game) && cfg.beat > 0.0 && FairDraws(h)
    requires Stage(cfg, game[0], game[|game| - 1], cuts, crashes) && !AllFinal(game[|game| - 1].Now())
    ensures Game(cfg, h, adversary, crashes, next) && game <= next && |next| == |game| + 1
  {
    var after := MoveExists(cfg, h, adversary, game[|game| - 1], |game[0].steps|, crashes);
    GameAppends(cfg, h, adversary, crashes, game, after);
    next := game + [after];
  }

  /**
   Whatever the adversary does, however the handlers behave and however the game began, the strategy goes on to
   win: the game ends with every job final, and no game goes on for longer than the bound.
   */
  lemma {:induction false} StrategyWins(cfg: Config, h: Handlers, adversary: Adversary, crashes: nat,
                                        game: seq<Transcript>)
    returns (whole: seq<Transcript>)
    requires Game(cfg, h, adversary, crashes, game) && cfg.beat > 0.0 && FairDraws(h)
    ensures Game(cfg, h, adversary, crashes, whole) && game <= whole
    ensures |whole| == 1 || |whole| - 1 <= Bound(game[0], crashes)
    ensures whole[|whole| - 1].Whole() && AllFinal(whole[|whole| - 1].Now())
    decreases Bound(game[0], crashes) - |game|
  {
    var cuts := GameIsDriven(cfg, h, adversary, crashes, game, |game| - 1);
    if AllFinal(game[|game| - 1].Now()) {
      whole := game;
      GamesEnd(cfg, h, adversary, crashes, game);
    } else {
      var next := GameGoesOn(cfg, h, adversary, crashes, game, cuts);
      GamesEnd(cfg, h, adversary, crashes, next);
      whole := StrategyWins(cfg, h, adversary, crashes, next);
    }
  }
}
