/** The length-adaptive speech rate: a piecewise-linear map from the number
    of phonemes in a chunk to the speed multiplier handed to the acoustic
    model. Python's float arithmetic is modelled by exact reals. */
module SpeedPolicy {

  /** Chunks up to this many phonemes are spoken at full rate. */
  const FullRateLimit: nat := 83
  /** From this many phonemes on the rate stays at its floor. */
  const FloorLimit: nat := 183
  /** The factor every multiplier is scaled by at the end. */
  const GlobalScale: real := 1.1

  /** speed_callable(len_ps). */
  function SpeedFor(lenPs: nat): (speed: real)
    ensures 0.88 <= speed <= 1.1
    ensures lenPs <= FullRateLimit ==> speed == 1.0 * GlobalScale
    ensures lenPs >= FloorLimit ==> speed == 0.8 * GlobalScale
  {
    var base :=
      if lenPs <= FullRateLimit then 1.0
      else if lenPs < FloorLimit then 1.0 - (lenPs - FullRateLimit) as real / 500.0
      else 0.8;
    base * GlobalScale
  }

  /** Inside the slope every extra phoneme takes 1.1/500 off the speed. */
  lemma SpeedInBand(lenPs: nat)
    requires FullRateLimit <= lenPs <= FloorLimit
    ensures SpeedFor(lenPs) == 1.1 - 0.0022 * (lenPs - FullRateLimit) as real
  {
  }

  /** Longer chunks are never spoken faster. */
  lemma SpeedNonIncreasing(a: nat, b: nat)
    requires a <= b
    ensures SpeedFor(b) <= SpeedFor(a)
  {
  }

  /** On the slope, longer chunks are spoken strictly slower. */
  lemma SpeedStrictlyDecreasingInBand(a: nat, b: nat)
    requires FullRateLimit <= a < b <= FloorLimit
    ensures SpeedFor(b) < SpeedFor(a)
  {
  }

  /** The discrete form of continuity: one more phoneme changes the speed by
      at most 1.1/500, in particular there is no jump at either end of the slope. */
  lemma SpeedStep(n: nat)
    ensures 0.0 <= SpeedFor(n) - SpeedFor(n + 1) <= 0.0022
    ensures SpeedFor(n) - SpeedFor(n + 1) == 0.0022 <==> FullRateLimit <= n < FloorLimit
  {
  }

  /** The bounds of SpeedFor are attained: the range is exactly [0.88, 1.1]. */
  lemma SpeedRangeIsTight()
    ensures exists n: nat :: SpeedFor(n) == 1.1
    ensures exists n: nat :: SpeedFor(n) == 0.88
  {
    assert SpeedFor(0) == 1.1;
    assert SpeedFor(FloorLimit) == 0.88;
  }
}
