/** The randomized wait placed before each wallet's chain and before each retry. */
module RandomDelay {
  import opened MintConfig

  /** Number of distinct delays: MAX_DELAY - MIN_DELAY + 1. */
  const DELAY_SPAN: int := MAX_DELAY - MIN_DELAY + 1

  /** A value that a uniform sampler on [0, 1) may return. */
  predicate IsSample(u: real) {
    0.0 <= u < 1.0
  }

  /** Scales a sample in [0, 1) to a whole delay in milliseconds. */
  function GetRandomDelay(u: real): (d: int)
    requires IsSample(u)
    ensures MIN_DELAY <= d <= MAX_DELAY
  {
    (u * DELAY_SPAN as real).Floor + MIN_DELAY
  }

  /** Every delay in the configured range is produced by some sample. */
  lemma DelayReachable(d: int)
    requires MIN_DELAY <= d <= MAX_DELAY
    ensures exists u :: IsSample(u) && GetRandomDelay(u) == d
  {
    var u := (d - MIN_DELAY) as real / DELAY_SPAN as real;
    assert u * DELAY_SPAN as real == (d - MIN_DELAY) as real;
    assert IsSample(u) && GetRandomDelay(u) == d;
  }
}
