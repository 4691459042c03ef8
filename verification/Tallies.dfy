/** Counting processes by what they hold. */
module Tallies {
  import opened Domain
  import opened Protocol
  import opened Sums

  ghost function Tally(procs: map<WorkerId, Proc>, f: Proc -> int): int {
    Sum(procs.Keys, w => if w in procs then f(procs[w]) else 0)
  }

  lemma TallyUpdate(procs: map<WorkerId, Proc>, w: WorkerId, p: Proc, f: Proc -> int)
    ensures Tally(procs[w := p], f) == Tally(procs, f) - (if w in procs then f(procs[w]) else 0) + f(p)
  {
    var after := procs[w := p];
    assert after.Keys == procs.Keys + {w};
    SumUpdate(procs.Keys, v => if v in procs then f(procs[v]) else 0, v => if v in after then f(after[v]) else 0, w);
  }

  lemma TallyBounds(procs: map<WorkerId, Proc>, f: Proc -> int)
    requires forall p :: f(p) >= 0
    ensures Tally(procs, f) >= 0
    ensures forall w :: w in procs ==> f(procs[w]) <= Tally(procs, f)
  {
    var g := w => if w in procs then f(procs[w]) else 0;
    SumNonnegative(procs.Keys, g);
    forall w | w in procs ensures f(procs[w]) <= Tally(procs, f) {
      assert g(w) == f(procs[w]);
    }
  }

  lemma TallyZero(procs: map<WorkerId, Proc>, f: Proc -> int)
    requires forall w :: w in procs ==> f(procs[w]) == 0
    ensures Tally(procs, f) == 0
  {
    SumZero(procs.Keys, w => if w in procs then f(procs[w]) else 0);
  }
}
