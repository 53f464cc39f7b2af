// What the draw does to a delay, and the shipped configuration in figures.

module Jitter {
  import opened Backoffs

  // The delay before jitter starts at the base and is multiplied by the factor
  // from one attempt to the next, each time cut to the cap. A negative attempt
  // counts as the first.
  lemma CappedRecurs(b: Backoff, attempt: nat)
    requires Sane(b)
    ensures var (base, max) := (b.baseDelay as real, b.maxDelay as real);
      && Capped(b, 0) == (if base < max then base else max)
      && Capped(b, attempt + 1)
         == (if b.factor * Capped(b, attempt) < max then b.factor * Capped(b, attempt) else max)
    ensures forall n: int :: n < 0 ==> Capped(b, n) == Capped(b, 0)
  {
    UncappedGrows(b, attempt, attempt + 1);
    UncappedAtZero(b);
    MulMono(b.maxDelay as real, 1.0, b.factor);
    hide Uncapped;
  }

  // Draw 0 gives the low end of the band, and the delay moves up with the draw
  // at an even rate.
  lemma JitterIsEven(b: Backoff, delay: real, draw: real)
    requires b.jitter >= 0.0
    ensures Jittered(b, delay, 0.0) == delay * (1.0 - b.jitter)
    ensures Jittered(b, delay, draw) - Jittered(b, delay, 0.0) == draw * (2.0 * delay * b.jitter)
  {
    var range := delay * b.jitter;
    assert draw * 2.0 * range == draw * (2.0 * delay * b.jitter);
    assert 0.0 * 2.0 * range == 0.0;
    if b.jitter == 0.0 {
      assert 2.0 * delay * b.jitter == 0.0;
    }
  }

  // With jitter a larger draw gives a larger delay; without it the draw has no
  // effect.
  lemma LargerDrawLargerDelay(b: Backoff, delay: real, u: real, v: real)
    requires b.jitter >= 0.0 && delay > 0.0
    ensures b.jitter > 0.0 ==> (u < v <==> Jittered(b, delay, u) < Jittered(b, delay, v))
    ensures b.jitter == 0.0 ==> Jittered(b, delay, u) == delay
  {
    JitterIsEven(b, delay, u);
    JitterIsEven(b, delay, v);
    hide Jittered;
    var width := 2.0 * delay * b.jitter;
    Product(2.0 * delay, b.jitter);
    ProductGrows(width, u, v);
    ProductGrows(width, v, u);
  }

  lemma Product(x: real, y: real)
    requires x > 0.0
    ensures y > 0.0 ==> x * y > 0.0
    ensures y == 0.0 ==> x * y == 0.0
  {
  }

  lemma ProductGrows(width: real, u: real, v: real)
    ensures width > 0.0 && u < v ==> u * width < v * width
    ensures width == 0.0 ==> u * width == 0.0
  {
    if width > 0.0 && u < v {
      Product(v - u, width);
      assert v * width - u * width == (v - u) * width;
    }
  }

  // Every delay of the band, its low end included and its high end not, comes of
  // exactly one draw, and no other delay of any.
  lemma EachDelayOneDraw(b: Backoff, delay: real, x: real) returns (draw: real)
    requires Sane(b) && b.jitter > 0.0 && delay > 0.0
    ensures Draw(draw) <==> delay * (1.0 - b.jitter) <= x < delay * (1.0 + b.jitter)
    ensures forall u: real :: Jittered(b, delay, u) == x <==> u == draw
  {
    var low, width := delay * (1.0 - b.jitter), 2.0 * delay * b.jitter;
    Product(2.0 * delay, b.jitter);
    assert delay * (1.0 + b.jitter) == low + width;
    draw := Share(low, width, x);
    JitterIsEven(b, delay, draw);
    hide Sane, Draw;
    forall u: real ensures Jittered(b, delay, u) == x <==> u == draw {
      LargerDrawLargerDelay(b, delay, u, draw);
      LargerDrawLargerDelay(b, delay, draw, u);
    }
  }

  lemma Share(low: real, width: real, x: real) returns (u: real)
    requires width > 0.0
    ensures u * width == x - low
    ensures Draw(u) <==> low <= x < low + width
  {
    u := (x - low) / width;
    UnitScaled(width, u);
  }

  lemma UnitScaled(width: real, u: real)
    requires width > 0.0
    ensures 0.0 <= u < 1.0 <==> 0.0 <= u * width < width
  {
    ProductGrows(width, u, 0.0);
    ProductGrows(width, 0.0, u);
    ProductGrows(width, u, 1.0);
    ProductGrows(width, 1.0, u);
  }

  // Last, the floor of 100 ms; then the fraction is dropped.
  lemma DelayIsWhole(b: Backoff, attempt: int, draw: real)
    requires Sane(b) && Draw(draw)
    ensures var d, r := Capped(b, attempt), NextDelay(b, attempt, draw);
      var x := d * (1.0 - b.jitter) + draw * (2.0 * d * b.jitter);
      if x < 100000000.0 then r == 100000000 else r as real <= x < r as real + 1.0
  {
    JitterIsEven(b, Capped(b, attempt), draw);
    hide Jittered, Capped;
  }

  // ----- the shipped configuration -----

  const SECONDS: seq<int> := [1, 2, 4, 8, 16, 32, 64, 128, 256]

  // One second doubled up to 256, and five minutes from the tenth attempt on.
  lemma {:induction false} DefaultDelays(attempt: int)
    ensures Capped(DEFAULT, attempt) == (
      if attempt < 0 then 1000000000.0
      else if attempt < 9 then SECONDS[attempt] as real * 1000000000.0
      else 300000000000.0)
    decreases attempt
  {
    CappedRecurs(DEFAULT, if attempt <= 0 then 0 else attempt - 1);
    hide Capped;
    if attempt > 0 {
      DefaultDelays(attempt - 1);
    }
  }

  // The middle draw gives those figures; draw 0 four fifths of them.
  lemma DefaultFigures(attempt: int)
    ensures var ns := if attempt < 0 then 1000000000
                      else if attempt < 9 then SECONDS[attempt] * 1000000000 else 300000000000;
      && NextDelay(DEFAULT, attempt, 0.5) == ns
      && NextDelay(DEFAULT, attempt, 0.0) == ns * 4 / 5
  {
    DefaultDelays(attempt);
    JitterIsEven(DEFAULT, Capped(DEFAULT, attempt), 0.5);
    hide Capped, Jittered;
    DelayIsWhole(DEFAULT, attempt, 0.5);
    DelayIsWhole(DEFAULT, attempt, 0.0);
  }
}
