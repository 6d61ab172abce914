/** The delay before a compensation job is tried again. */
module Backoff {
  import opened Prelude

  const BASE_MS: int := 30_000
  const MAX_MS: int := 3_600_000

  function Pow2(n: nat): nat { if n == 0 then 1 else 2 * Pow2(n - 1) }

  function Base(attempts: nat): int { Min(MAX_MS, BASE_MS * Pow2(attempts)) }

  /** `draw` is the random number in [0, 1) the jitter is scaled by. */
  function Delay(attempts: nat, draw: real): int
    requires 0.0 <= draw < 1.0
  {
    var base := Base(attempts);
    var jitter := (draw * (Min(5_000, base / 5) as real)).Floor;
    Min(MAX_MS, base + jitter)
  }

  lemma {:induction false} PowerIsPositive(n: nat)
    ensures Pow2(n) >= 1
  {
    if n > 0 { PowerIsPositive(n - 1); }
  }

  lemma JitterInRange(draw: real, width: nat)
    requires 0.0 <= draw < 1.0
    ensures 0 <= (draw * (width as real)).Floor <= width
  {
    assert 0.0 <= draw * (width as real) <= width as real;
  }

  lemma DelayInRange(attempts: nat, draw: real)
    requires 0.0 <= draw < 1.0
    ensures Base(attempts) <= Delay(attempts, draw) <= Min(MAX_MS, Base(attempts) + 5_000)
  {
    PowerIsPositive(attempts);
    JitterInRange(draw, Min(5_000, Base(attempts) / 5));
  }

  /** Whatever the two draws, a later retry never waits less, and none waits more than an hour. */
  lemma DelaysGrow(attempts: nat, first: real, second: real)
    requires 0.0 <= first < 1.0 && 0.0 <= second < 1.0
    ensures Delay(attempts, first) <= Delay(attempts + 1, second) <= MAX_MS
  {
    PowerIsPositive(attempts);
    DelayInRange(attempts, first);
    DelayInRange(attempts + 1, second);
  }

  /** The delay before jitter: half a minute, doubled with every attempt, and an hour at most. */
  lemma BaseDoubles(attempts: nat)
    ensures Base(0) == 30_000 && Base(attempts + 1) == Min(3_600_000, 2 * Base(attempts))
  {
    PowerIsPositive(attempts);
  }

  /** The width of the jitter: a fifth of the base, and five seconds at most. */
  function Width(attempts: nat): nat {
    PowerIsPositive(attempts);
    Min(5_000, Base(attempts) / 5)
  }

  /** A draw that gives the jitter `j`. */
  lemma DrawFor(j: nat, width: nat)
    requires j < width
    ensures var draw := (j as real) / (width as real); 0.0 <= draw < 1.0 && (draw * (width as real)).Floor == j
  {
    var draw := (j as real) / (width as real);
    assert draw * (width as real) == j as real;
  }

  /** Some draw gives the delay exactly if it lies less than the jitter's width above the base, and within the hour. */
  lemma DelayIff(attempts: nat, delay: int)
    ensures (exists draw :: 0.0 <= draw < 1.0 && Delay(attempts, draw) == delay)
            <==> Base(attempts) <= delay < Base(attempts) + Width(attempts) && delay <= 3_600_000
  {
    PowerIsPositive(attempts);
    var width := Width(attempts);
    forall draw | 0.0 <= draw < 1.0
      ensures Base(attempts) <= Delay(attempts, draw) < Base(attempts) + width
    {
      JitterInRange(draw, width);
      assert draw * (width as real) < width as real;
    }
    var j := delay - Base(attempts);
    if 0 <= j < width && delay <= 3_600_000 {
      DrawFor(j, width);
      assert Delay(attempts, (j as real) / (width as real)) == delay;
    }
  }
}
