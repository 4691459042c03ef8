/** Finite sums over a set of numeric keys: the counting argument behind every "how many" statement. */
module Sums {

  ghost function Sum(keys: set<nat>, f: nat -> int): int {
    if keys == {} then 0
    else
      var k: nat :| k in keys;
      f(k) + Sum(keys - {k}, f)
  }

  lemma {:induction false} SumSplit(keys: set<nat>, f: nat -> int, k: nat)
    requires k in keys
    ensures Sum(keys, f) == f(k) + Sum(keys - {k}, f)
  {
    var j :| j in keys && Sum(keys, f) == f(j) + Sum(keys - {j}, f);
    if j != k {
      SumSplit(keys - {j}, f, k);
      SumSplit(keys - {k}, f, j);
      assert keys - {j} - {k} == keys - {k} - {j};
    }
  }

  lemma {:induction false} SumSame(keys: set<nat>, f: nat -> int, g: nat -> int)
    requires forall k :: k in keys ==> f(k) == g(k)
    ensures Sum(keys, f) == Sum(keys, g)
  {
    if keys != {} {
      var k: nat :| k in keys;
      SumSplit(keys, f, k);
      SumSplit(keys, g, k);
      SumSame(keys - {k}, f, g);
    }
  }

  lemma {:induction false} SumAtMost(keys: set<nat>, f: nat -> int, g: nat -> int)
    requires forall k :: k in keys ==> f(k) <= g(k)
    ensures Sum(keys, f) <= Sum(keys, g)
  {
    if keys != {} {
      var k: nat :| k in keys;
      SumSplit(keys, f, k);
      SumSplit(keys, g, k);
      SumAtMost(keys - {k}, f, g);
    }
  }

  /** Changing one entry, present or not, changes the sum by exactly that entry. */
  lemma SumUpdate(keys: set<nat>, f: nat -> int, g: nat -> int, k: nat)
    requires forall j :: j in keys && j != k ==> f(j) == g(j)
    ensures Sum(keys + {k}, g) == Sum(keys, f) - (if k in keys then f(k) else 0) + g(k)
  {
    SumSplit(keys + {k}, g, k);
    assert keys + {k} - {k} == keys - {k};
    SumSame(keys - {k}, f, g);
    if k in keys {
      SumSplit(keys, f, k);
    } else {
      assert keys - {k} == keys;
    }
  }

  lemma {:induction false} SumZero(keys: set<nat>, f: nat -> int)
    requires forall k :: k in keys ==> f(k) == 0
    ensures Sum(keys, f) == 0
  {
    if keys != {} {
      var k: nat :| k in keys;
      SumSplit(keys, f, k);
      SumZero(keys - {k}, f);
    }
  }

  lemma {:induction false} SumNonnegative(keys: set<nat>, f: nat -> int)
    requires forall k :: k in keys ==> f(k) >= 0
    ensures Sum(keys, f) >= 0
    ensures forall k :: k in keys ==> f(k) <= Sum(keys, f)
  {
    forall k | k in keys ensures f(k) <= Sum(keys, f) {
      SumSplit(keys, f, k);
      SumNonnegative(keys - {k}, f);
    }
    if keys != {} {
      var k: nat :| k in keys;
      assert f(k) <= Sum(keys, f);
    }
  }

  lemma {:induction false} SumAdd(keys: set<nat>, f: nat -> int, g: nat -> int, h: nat -> int)
    requires forall k :: k in keys ==> h(k) == f(k) + g(k)
    ensures Sum(keys, h) == Sum(keys, f) + Sum(keys, g)
  {
    if keys != {} {
      var k: nat :| k in keys;
      SumSplit(keys, f, k);
      SumSplit(keys, g, k);
      SumSplit(keys, h, k);
      SumAdd(keys - {k}, f, g, h);
    }
  }
}
