// internal/retry/backoff.go, with float64 read as real and durations in
// nanoseconds. The draw of rand.Float64 is a parameter in [0, 1).

module Backoffs {
  const FLOOR: real := 100000000.0

  datatype Backoff = Backoff(baseDelay: int, maxDelay: int, factor: real, jitter: real)

  // retry.DefaultConfig, as the scheduler hands it to a Backoff.
  const DEFAULT := Backoff(1000000000, 300000000000, 2.0, 0.2)

  function Pow(x: real, n: nat): real {
    if n == 0 then 1.0 else x * Pow(x, n - 1)
  }

  function Uncapped(b: Backoff, n: nat): real {
    (b.baseDelay as real) * Pow(b.factor, n)
  }

  // The delay before jitter.
  function Capped(b: Backoff, attempt: int): real {
    var delay := Uncapped(b, if attempt < 0 then 0 else attempt);
    if delay > b.maxDelay as real then b.maxDelay as real else delay
  }

  function Jittered(b: Backoff, delay: real, draw: real): real {
    if b.jitter > 0.0 then
      var range := delay * b.jitter;
      delay + (draw * 2.0 * range - range)
    else delay
  }

  // The floor, and then time.Duration(delay), which drops the fraction.
  function Truncated(delay: real): int {
    (if delay < FLOOR then FLOOR else delay).Floor
  }

  function NextDelay(b: Backoff, attempt: int, draw: real): int {
    Truncated(Jittered(b, Capped(b, attempt), draw))
  }

  ghost predicate Sane(b: Backoff) {
    b.baseDelay > 0 && b.maxDelay > 0 && b.factor >= 1.0 && 0.0 <= b.jitter <= 1.0
  }

  predicate Draw(u: real) {
    0.0 <= u < 1.0
  }

  function Max(x: real, y: real): real {
    if x < y then y else x
  }

  // The jitter band around a delay.
  function Low(b: Backoff, delay: real): real {
    delay * (1.0 - b.jitter)
  }

  function High(b: Backoff, delay: real): real {
    delay * (1.0 + b.jitter)
  }

  // ----- powers -----

  lemma MulMono(a: real, x: real, y: real)
    requires a >= 0.0 && x <= y
    ensures a * x <= a * y
  {
    assert a * (y - x) >= 0.0;
  }

  lemma {:induction false} PowGrows(x: real, m: nat, n: nat)
    requires x >= 1.0 && m <= n
    ensures 1.0 <= Pow(x, m) <= Pow(x, n)
    decreases n
  {
    if n > 0 {
      if m == n {
        PowGrows(x, m - 1, n - 1);
      } else {
        PowGrows(x, m, n - 1);
      }
      MulMono(Pow(x, n - 1), 1.0, x);
    }
  }

  // Bernoulli's inequality: enough to outgrow any cap.
  lemma {:induction false} PowOutgrows(x: real, n: nat)
    requires x > 1.0
    ensures Pow(x, n) >= 1.0 + (n as real) * (x - 1.0)
  {
    if n > 0 {
      PowOutgrows(x, n - 1);
      PowGrows(x, 0, n - 1);
      BernoulliStep(x, Pow(x, n - 1), (n - 1) as real);
      assert n as real == (n - 1) as real + 1.0;
    }
  }

  lemma BernoulliStep(x: real, p: real, m: real)
    requires x > 1.0 && p >= 1.0 && p >= 1.0 + m * (x - 1.0)
    ensures x * p >= 1.0 + (m + 1.0) * (x - 1.0)
  {
    MulMono(x - 1.0, 1.0, p);
    assert x * p == p + (x - 1.0) * p;
    assert (m + 1.0) * (x - 1.0) == m * (x - 1.0) + (x - 1.0);
  }

  // ----- the delay before jitter -----

  lemma UncappedGrows(b: Backoff, m: nat, n: nat)
    requires Sane(b) && m <= n
    ensures 0.0 < b.baseDelay as real <= Uncapped(b, m) <= Uncapped(b, n)
    ensures Uncapped(b, m + 1) == b.factor * Uncapped(b, m)
  {
    PowGrows(b.factor, 0, m);
    PowGrows(b.factor, m, n);
    assert Pow(b.factor, m + 1) == b.factor * Pow(b.factor, m);
    hide Pow;
    Scaled(b.baseDelay as real, b.factor, Pow(b.factor, m), Pow(b.factor, n));
  }

  lemma Scaled(base: real, f: real, p: real, q: real)
    requires base > 0.0 && 1.0 <= p <= q
    ensures base <= base * p <= base * q && base * (f * p) == f * (base * p)
  {
    MulMono(base, p, q);
    MulMono(base, 1.0, p);
  }

  // Monotone, and never above the cap.
  lemma CappedMonotone(b: Backoff, m: int, n: int)
    requires Sane(b) && m <= n
    ensures 0.0 < Capped(b, m) <= Capped(b, n) <= b.maxDelay as real
  {
    UncappedGrows(b, if m < 0 then 0 else m, if n < 0 then 0 else n);
    hide Uncapped;
  }

  // With a factor above one the cap is reached, and kept from then on.
  lemma CapIsReached(b: Backoff) returns (n: nat)
    requires Sane(b) && b.factor > 1.0
    ensures forall attempt: int :: attempt >= n ==> Capped(b, attempt) == b.maxDelay as real
  {
    n := Outgrown(b);
    hide Uncapped;
    forall attempt: int | attempt >= n ensures Capped(b, attempt) == b.maxDelay as real {
      UncappedGrows(b, n, attempt);
    }
  }

  lemma Outgrown(b: Backoff) returns (n: nat)
    requires Sane(b) && b.factor > 1.0
    ensures Uncapped(b, n) > b.maxDelay as real
  {
    n := Enough(b.factor - 1.0, b.maxDelay as real);
    PowOutgrows(b.factor, n);
    hide Pow;
    Exceeds(b.baseDelay as real, Pow(b.factor, n), b.maxDelay as real);
  }

  lemma Exceeds(base: real, p: real, max: real)
    requires base >= 1.0 && p > max > 0.0
    ensures base * p > max
  {
    MulMono(p, 1.0, base);
    Commuted(p, base);
  }

  lemma Commuted(x: real, y: real)
    ensures x * y == y * x
  {
  }

  // A multiple of step that reaches max.
  lemma Enough(step: real, max: real) returns (n: nat)
    requires step > 0.0 && max > 0.0
    ensures (n as real) * step >= max
  {
    var need := max / step;
    assert step * need == max;
    if need < 0.0 {
      MulMono(step, need, 0.0);
    }
    n := need.Floor + 1;
    Reaches(step, need, n as real, max);
  }

  lemma Reaches(step: real, need: real, n: real, max: real)
    requires step > 0.0 && step * need == max && need <= n
    ensures n * step >= max
  {
    MulMono(step, need, n);
    Commuted(step, n);
  }

  // ----- the delay after jitter -----

  lemma JitterBand(b: Backoff, delay: real, draw: real)
    requires Sane(b) && Draw(draw) && delay > 0.0
    ensures Low(b, delay) <= Jittered(b, delay, draw) <= High(b, delay)
  {
    var range := delay * b.jitter;
    MulMono(delay, 0.0, b.jitter);
    MulMono(2.0 * range, draw, 1.0);
    MulMono(2.0 * range, 0.0, draw);
    assert (2.0 * range) * draw == draw * 2.0 * range;
    assert Low(b, delay) == delay - range;
    assert High(b, delay) == delay + range;
  }

  lemma Truncation(x: real, low: real, high: real)
    requires low <= x <= high
    ensures Max(FLOOR, low) - 1.0 < Truncated(x) as real <= Max(FLOOR, high)
    ensures Truncated(x) as real >= FLOOR
  {
    var y := if x < FLOOR then FLOOR else x;
    assert y.Floor as real <= y < y.Floor as real + 1.0;
    assert y >= FLOOR ==> y.Floor >= 100000000;
  }

  // Every draw lands in the jitter band around the capped delay, lifted to the
  // floor, up to the fraction of a nanosecond that is dropped.
  lemma DelayInBand(b: Backoff, attempt: int, draw: real)
    requires Sane(b) && Draw(draw)
    ensures var d, r := Capped(b, attempt), NextDelay(b, attempt, draw) as real;
      Max(FLOOR, Low(b, d)) - 1.0 < r <= Max(FLOOR, High(b, d)) && r >= FLOOR
  {
    hide Capped, Low, High, Jittered, Truncated, Max;
    var d := Capped(b, attempt);
    CappedMonotone(b, attempt, attempt);
    JitterBand(b, d, draw);
    Truncation(Jittered(b, d, draw), Low(b, d), High(b, d));
  }

  // The factor outweighs the jitter, by a nanosecond or more at the floor.
  ghost predicate Spread(b: Backoff) {
    FLOOR * (b.factor * (1.0 - b.jitter) - (1.0 + b.jitter)) >= 1.0
  }

  // Uncapped and above the floor, the draws of successive attempts then do not
  // overlap.
  lemma LaterDrawsExceedEarlier(b: Backoff, attempt: nat, u: real, v: real)
    requires Sane(b) && Spread(b) && Draw(u) && Draw(v)
    requires Uncapped(b, attempt + 1) <= b.maxDelay as real
    requires Low(b, Capped(b, attempt)) >= FLOOR
    ensures NextDelay(b, attempt, u) < NextDelay(b, attempt + 1, v)
  {
    hide Jittered, Truncated, Low, High, Spread, Uncapped;
    UncappedGrows(b, attempt, attempt + 1);
    var d, e := Capped(b, attempt), Capped(b, attempt + 1);
    assert d == Uncapped(b, attempt) && e == Uncapped(b, attempt + 1);
    assert e == b.factor * d;
    JitterBand(b, d, u);
    JitterBand(b, e, v);
    BandsApart(b, d);
    TruncationSplits(Jittered(b, d, u), Jittered(b, e, v));
  }

  lemma BandsApart(b: Backoff, d: real)
    requires Sane(b) && Spread(b) && d > 0.0 && Low(b, d) >= FLOOR
    ensures Low(b, b.factor * d) >= High(b, d) + 1.0 && High(b, d) >= FLOOR
  {
    var low, high := 1.0 - b.jitter, 1.0 + b.jitter;
    MulMono(d, low, 1.0);
    MulMono(d, low, high);
    Gap(d, b.factor, low, high);
    assert Low(b, b.factor * d) == b.factor * d * low;
    assert b.factor * d * low == d * b.factor * low;
  }

  lemma Gap(d: real, f: real, low: real, high: real)
    requires d >= FLOOR && FLOOR * (f * low - high) >= 1.0
    ensures d * f * low >= d * high + 1.0
  {
    var margin := f * low - high;
    assert margin > 0.0 by {
      if margin <= 0.0 {
        MulMono(FLOOR, margin, 0.0);
      }
    }
    MulMono(margin, FLOOR, d);
    assert margin * d == d * f * low - d * high;
  }

  lemma TruncationSplits(x: real, y: real)
    requires y >= x + 1.0 && y >= FLOOR + 1.0
    ensures Truncated(x) < Truncated(y)
  {
    assert y.Floor as real > y - 1.0;
  }

  // The shipped configuration is such a one: every draw of attempts 0 to 8,
  // the last below the cap, exceeds every draw of the attempt before.
  lemma DefaultDrawsExceed(attempt: nat, u: real, v: real)
    requires Draw(u) && Draw(v) && attempt <= 7
    ensures NextDelay(DEFAULT, attempt, u) < NextDelay(DEFAULT, attempt + 1, v)
  {
    UncappedGrows(DEFAULT, attempt + 1, 8);
    assert Uncapped(DEFAULT, 8) == 256000000000.0 by {
      assert Pow(2.0, 4) == 16.0;
      assert Pow(2.0, 6) == 64.0;
      assert Pow(2.0, 8) == 256.0;
    }
    UncappedGrows(DEFAULT, attempt, attempt + 1);
    hide Uncapped, Pow, NextDelay;
    assert Capped(DEFAULT, attempt) >= 1000000000.0;
    LaterDrawsExceedEarlier(DEFAULT, attempt, u, v);
  }

  // ----- the time a run of retries takes -----

  function SumDelays(b: Backoff, draws: seq<real>): int {
    if draws == [] then 0
    else SumDelays(b, draws[..|draws| - 1]) + NextDelay(b, |draws| - 1, draws[|draws| - 1])
  }

  // (1 + J) * base * (F^n - 1), the geometric sum times F - 1.
  function GeometricBound(b: Backoff, n: nat): real {
    High(b, Uncapped(b, n)) - High(b, b.baseDelay as real)
  }

  // n consecutive delays stay within the geometric sum, jitter included.
  lemma {:induction false} DelaysWithinGeometricSum(b: Backoff, draws: seq<real>)
    requires Sane(b) && b.factor > 1.0 && b.baseDelay as real >= FLOOR
    requires forall u :: u in draws ==> Draw(u)
    ensures (SumDelays(b, draws) as real) * (b.factor - 1.0) <= GeometricBound(b, |draws|)
    decreases |draws|
  {
    hide NextDelay, Uncapped, High, Sane, Draw;
    if draws != [] {
      var n := |draws| - 1;
      assert draws[n] in draws;
      DelaysWithinGeometricSum(b, draws[..n]);
      DelayBelowGeometric(b, n, draws[n]);
      BoundStep(b, n, SumDelays(b, draws[..n]) as real, NextDelay(b, n, draws[n]) as real);
      assert SumDelays(b, draws) as real == SumDelays(b, draws[..n]) as real + NextDelay(b, n, draws[n]) as real;
    } else {
      UncappedAtZero(b);
    }
  }

  lemma UncappedAtZero(b: Backoff)
    ensures Uncapped(b, 0) == b.baseDelay as real
  {
  }

  lemma CappedBelowUncapped(b: Backoff, n: nat)
    ensures Capped(b, n) <= Uncapped(b, n)
  {
  }

  // The floor is below the base, the cap only shortens: a cap under the floor
  // included.
  lemma DelayBelowGeometric(b: Backoff, n: nat, u: real)
    requires Sane(b) && b.baseDelay as real >= FLOOR && Draw(u)
    ensures NextDelay(b, n, u) as real <= High(b, Uncapped(b, n))
  {
    CappedBelowUncapped(b, n);
    hide NextDelay, High, Uncapped, Capped;
    DelayInBand(b, n, u);
    UncappedGrows(b, n, n);
    CappedMonotone(b, n, n);
    HighGrows(b, Capped(b, n), Uncapped(b, n));
    HighGrows(b, Uncapped(b, n), Uncapped(b, n));
  }

  lemma HighGrows(b: Backoff, d: real, g: real)
    requires Sane(b) && 0.0 < d <= g
    ensures d <= High(b, d) <= High(b, g)
  {
    MulMono(d, 1.0, 1.0 + b.jitter);
    MulMono(1.0 + b.jitter, d, g);
  }

  lemma BoundStep(b: Backoff, n: nat, sum: real, r: real)
    requires Sane(b) && sum * (b.factor - 1.0) <= GeometricBound(b, n) && r <= High(b, Uncapped(b, n))
    ensures (sum + r) * (b.factor - 1.0) <= GeometricBound(b, n + 1)
  {
    UncappedGrows(b, n, n);
    var g, step := Uncapped(b, n), b.factor - 1.0;
    MulMono(step, r, High(b, g));
    assert (sum + r) * step == sum * step + step * r;
    HighSplits(b, g);
    hide High, Uncapped;
  }

  lemma HighSplits(b: Backoff, g: real)
    ensures High(b, b.factor * g) == High(b, g) + (b.factor - 1.0) * High(b, g)
  {
  }
}
