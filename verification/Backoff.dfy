/** Exponential backoff with jitter, one delay at a time and over a whole retry history. */
module Backoff {
  import opened Domain

  const MAX_DELAY: real := 300.0

  function Min(a: real, b: real): real {
    if b < a then b else a
  }

  function Pow2(n: nat): (p: real)
    ensures p >= 1.0
  {
    if n == 0 then 1.0 else 2.0 * Pow2(n - 1)
  }

  /** base * 2^(attempt - 1), before the cap. */
  function Uncapped(attempt: nat, base: real): real
    requires attempt >= 1
  {
    base * Pow2(attempt - 1)
  }

  /** random.uniform(0, width), for a value u of random(). */
  function Uniform(u: real, width: real): real {
    u * width
  }

  /** Cap, add the jitter, cap again. The draw is the value of random(); None is jitter=False. */
  function Shape(delay: real, max: real, draw: Option<real>): real {
    var capped := Min(max, delay);
    Min(max, if draw.Some? then capped + Uniform(draw.value, 0.5 * capped) else capped)
  }

  function Delay(attempt: int, base: real, max: real, draw: Option<real>): real {
    Shape(Uncapped(if attempt < 1 then 1 else attempt, base), max, draw)
  }

  function NextRetryAt(attempt: int, base: real, draw: real, now: Time): Time {
    now + Delay(attempt, base, MAX_DELAY, Some(draw))
  }

  predicate Fair(draw: Option<real>) {
    draw.Some? ==> 0.0 <= draw.value <= 1.0
  }

  lemma NonnegativeProduct(a: real, b: real)
    requires a >= 0.0 && b >= 0.0
    ensures a * b >= 0.0
  {}

  lemma Complement(u: real, width: real)
    ensures u * width + (1.0 - u) * width == width
  {}

  lemma UniformBounds(u: real, width: real)
    requires 0.0 <= u <= 1.0 && width >= 0.0
    ensures 0.0 <= Uniform(u, width) <= width
  {
    NonnegativeProduct(u, width);
    NonnegativeProduct(1.0 - u, width);
    Complement(u, width);
  }

  lemma ShapeBounds(delay: real, max: real, draw: Option<real>)
    requires delay >= 0.0 && max > 0.0 && Fair(draw)
    ensures Min(max, delay) <= Shape(delay, max, draw) <= Min(max, 1.5 * delay)
  {
    if draw.Some? {
      UniformBounds(draw.value, 0.5 * Min(max, delay));
    }
  }

  lemma UncappedPositive(attempt: nat, base: real)
    requires attempt >= 1 && base > 0.0
    ensures Uncapped(attempt, base) >= base
    ensures Uncapped(attempt + 1, base) == 2.0 * Uncapped(attempt, base)
  {
    var p := Pow2(attempt - 1);
    assert base * (p - 1.0) >= 0.0;
    assert Pow2(attempt) == 2.0 * p;
  }

  lemma DelayBounds(attempt: nat, base: real, max: real, draw: Option<real>)
    requires attempt >= 1 && base > 0.0 && max > 0.0 && Fair(draw)
    ensures Min(max, Uncapped(attempt, base)) <= Delay(attempt, base, max, draw)
            <= Min(max, 1.5 * Uncapped(attempt, base))
  {
    UncappedPositive(attempt, base);
    ShapeBounds(Uncapped(attempt, base), max, draw);
  }

  lemma JitterBelowCap(d: real, u: real)
    ensures d + u * (0.5 * d) == (1.0 + u / 2.0) * d
  {}

  lemma JitterLengthens(d: real, u: real)
    requires d >= 0.0 && u >= 0.0
    ensures (1.0 + u / 2.0) * d >= d && u * (0.5 * d) >= 0.0
  {
    NonnegativeProduct(u, 0.5 * d);
    JitterBelowCap(d, u);
  }

  lemma ShapeExactly(delay: real, max: real, u: real)
    requires delay >= 0.0 && max > 0.0 && 0.0 <= u <= 1.0
    ensures Shape(delay, max, Some(u)) == Min(max, (1.0 + u / 2.0) * delay)
  {
    JitterLengthens(delay, u);
    if delay <= max {
      JitterBelowCap(delay, u);
    } else {
      JitterLengthens(max, u);
    }
  }

  lemma JitteredShape(delay: real, max: real, draw: Option<real>)
    requires delay >= 0.0 && max > 0.0 && Fair(draw)
    ensures Shape(delay, max, draw) == Min(max, if draw.Some? then (1.0 + draw.value / 2.0) * delay else delay)
  {
    if draw.Some? {
      ShapeExactly(delay, max, draw.value);
    }
  }

  /** The doubled delay d, lengthened by half of the draw and cut at the cap; without jitter just cut. */
  lemma DelayExactly(attempt: nat, base: real, max: real, draw: Option<real>, d: real)
    requires attempt >= 1 && base > 0.0 && max > 0.0 && Fair(draw) && d == base * Pow2(attempt - 1)
    ensures Delay(attempt, base, max, draw) == Min(max, if draw.Some? then (1.0 + draw.value / 2.0) * d else d)
  {
    UncappedPositive(attempt, base);
    JitteredShape(d, max, draw);
  }

  /** Whatever the draws, the next delay is longer until the cap is reached, and then stays at it. */
  lemma DelayGrows(attempt: nat, base: real, max: real, draw: Option<real>, next: Option<real>)
    requires attempt >= 1 && base > 0.0 && max > 0.0 && Fair(draw) && Fair(next)
    ensures Delay(attempt, base, max, draw) <= Delay(attempt + 1, base, max, next)
    ensures Delay(attempt, base, max, draw) < max ==>
              Delay(attempt, base, max, draw) < Delay(attempt + 1, base, max, next)
    ensures Delay(attempt, base, max, draw) == max ==> Delay(attempt + 1, base, max, next) == max
  {
    UncappedPositive(attempt, base);
    DelayBounds(attempt, base, max, draw);
    DelayBounds(attempt + 1, base, max, next);
  }

  /** The waiting time spent over attempts 1..|draws|. */
  function TotalDelay(draws: seq<Option<real>>, base: real, max: real): real {
    if draws == [] then 0.0
    else TotalDelay(draws[..|draws| - 1], base, max) + Delay(|draws|, base, max, draws[|draws| - 1])
  }

  predicate AllFair(draws: seq<Option<real>>) {
    forall i :: 0 <= i < |draws| ==> Fair(draws[i])
  }

  function UncappedSum(n: nat, base: real): real {
    if n == 0 then 0.0 else UncappedSum(n - 1, base) + Uncapped(n, base)
  }

  function CapSum(n: nat, max: real): real {
    if n == 0 then 0.0 else CapSum(n - 1, max) + max
  }

  lemma NextTerm(base: real, p: real, q: real)
    requires q == 2.0 * p
    ensures base * (p - 1.0) + base * p == base * (q - 1.0)
  {}

  lemma {:induction false} UncappedSumIsGeometric(n: nat, base: real)
    ensures UncappedSum(n, base) == base * (Pow2(n) - 1.0)
  {
    if n > 0 {
      UncappedSumIsGeometric(n - 1, base);
      NextTerm(base, Pow2(n - 1), Pow2(n));
    }
  }

  lemma {:induction false} CapSumIsProduct(n: nat, max: real)
    ensures CapSum(n, max) == n as real * max
  {
    if n > 0 {
      CapSumIsProduct(n - 1, max);
      var k := (n - 1) as real;
      assert n as real == k + 1.0;
      assert (k + 1.0) * max == k * max + max;
    }
  }

  lemma {:induction false} TotalDelaySums(draws: seq<Option<real>>, base: real, max: real)
    requires base > 0.0 && max > 0.0 && AllFair(draws)
    ensures TotalDelay(draws, base, max) <= 1.5 * UncappedSum(|draws|, base)
    ensures TotalDelay(draws, base, max) <= CapSum(|draws|, max)
    ensures draws != [] && Uncapped(|draws|, base) <= max ==> TotalDelay(draws, base, max) >= UncappedSum(|draws|, base)
  {
    if draws != [] {
      var n := |draws| - 1;
      TotalDelaySums(draws[..n], base, max);
      DelayBounds(n + 1, base, max, draws[n]);
      if n > 0 {
        UncappedPositive(n, base);
      }
    }
  }

  lemma BelowBoth(total: real, a: real, b: real, c: real, d: real)
    requires total <= 1.5 * a && total <= c && a == b && c == d
    ensures total <= Min(1.5 * b, d)
  {}

  lemma UpperBound(total: real, n: nat, base: real, max: real)
    requires total <= 1.5 * UncappedSum(n, base) && total <= CapSum(n, max)
    ensures total <= Min(1.5 * (base * (Pow2(n) - 1.0)), n as real * max)
  {
    var a, c := UncappedSum(n, base), CapSum(n, max);
    UncappedSumIsGeometric(n, base);
    CapSumIsProduct(n, max);
    BelowBoth(total, a, base * (Pow2(n) - 1.0), c, n as real * max);
  }

  lemma LowerBound(total: real, n: nat, base: real)
    requires total >= UncappedSum(n, base)
    ensures total >= base * (Pow2(n) - 1.0)
  {
    UncappedSumIsGeometric(n, base);
  }

  /** A whole retry history waits at most 1.5 * base * (2^n - 1) and n caps, and at least base * (2^n - 1) uncapped. */
  lemma TotalDelayBounds(draws: seq<Option<real>>, base: real, max: real, n: nat, total: real)
    requires base > 0.0 && max > 0.0 && AllFair(draws) && n == |draws| && total == TotalDelay(draws, base, max)
    ensures total <= Min(1.5 * (base * (Pow2(n) - 1.0)), n as real * max)
    ensures n > 0 && Uncapped(n, base) <= max ==> total >= base * (Pow2(n) - 1.0)
  {
    TotalDelaySums(draws, base, max);
    UpperBound(total, n, base, max);
    if n > 0 && Uncapped(n, base) <= max {
      LowerBound(total, n, base);
    }
  }

  /** Over a whole history the delays are sorted, and equal delays can only be the cap. */
  lemma {:induction false} HistoryIsSorted(draws: seq<Option<real>>, base: real, max: real, i: nat, j: nat)
    requires base > 0.0 && max > 0.0 && AllFair(draws) && 1 <= i < j <= |draws|
    ensures Delay(i, base, max, draws[i - 1]) <= Delay(j, base, max, draws[j - 1]) <= max
    ensures Delay(i, base, max, draws[i - 1]) == Delay(j, base, max, draws[j - 1]) ==>
              Delay(i, base, max, draws[i - 1]) == max
  {
    DelayGrows(j - 1, base, max, draws[j - 2], draws[j - 1]);
    if i < j - 1 {
      HistoryIsSorted(draws, base, max, i, j - 1);
    }
  }

  /** Later attempts wait longer, whatever either of them draws, until the cap is reached. */
  lemma {:induction false} DelaysGrow(a: nat, b: nat, base: real, max: real, draw: Option<real>, later: Option<real>)
    requires 1 <= a < b && base > 0.0 && max > 0.0 && Fair(draw) && Fair(later)
    ensures Delay(a, base, max, draw) <= Delay(b, base, max, later)
    ensures Delay(a, base, max, draw) < max ==> Delay(a, base, max, draw) < Delay(b, base, max, later)
    decreases b
  {
    if b == a + 1 {
      DelayGrows(a, base, max, draw, later);
    } else {
      DelaysGrow(a, b - 1, base, max, draw, None);
      DelayGrows(b - 1, base, max, None, later);
    }
  }
}
