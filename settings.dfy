/** The behaviour engine's configuration: one immutable record of windows,
    thresholds, weights and score/RR bounds, the default values, and the
    static leverage table keyed by stop-loss percentage. */
module Settings {

  datatype BehaviourSettings = BehaviourSettings(
    // windows and data requirements
    minCandles: nat,
    featureWindow: nat,
    htfWindow: nat,
    flushLookback: nat,
    // flush / extreme behaviour
    flushMinDepthRatio: real,
    // chop detection
    smallBodyFactor: real,
    bigWickRatio: real,
    chopWeightColorFlip: real,
    chopWeightSmallBody: real,
    chopWeightTwoSidedWick: real,
    chopHighThreshold: real,
    chopLowThreshold: real,
    // virtual higher-timeframe drift
    htfDriftTolerancePct: real,
    // global scoring and filtering
    minScoreToSend: real,
    aPlusScore: real,
    minRrTp2: real,
    // noise floor and volatility ceiling (declared, read by no modelled code)
    noiseLookback: nat,
    noiseWickFactor: real,
    noiseRangeFactor: real,
    maxRiskFactor: real)

  /** The values the settings record is created with. */
  const Default: BehaviourSettings := BehaviourSettings(
    40, 40, 12, 20,
    0.35,
    0.45, 0.35, 0.4, 0.3, 0.3, 65.0, 35.0,
    0.15,
    70.0, 85.0, 1.6,
    20, 0.9, 0.6, 4.0)

  /** The stop-loss percentage band read by the fixed-band stop policy. The
      settings record does not define these two values, so the model takes
      them as a separate, explicit parameter. */
  datatype SlBand = SlBand(minSlPct: real, maxSlPct: real)

  /** A recommended leverage interval. */
  datatype LeverageRange = LeverageRange(levMin: real, levMax: real)

  /** Leverage recommendation for a stop-loss percentage: a piecewise table
      with inclusive upper bounds 0.25, 0.40, 0.70 and 1.50, and a fallback
      for a non-positive percentage. */
  function LeverageRangeForSl(slPct: real): (r: LeverageRange)
    ensures r.levMin < r.levMax
    ensures 0.0 < r.levMin
  {
    if slPct <= 0.0 then LeverageRange(5.0, 10.0)
    else if slPct <= 0.25 then LeverageRange(20.0, 30.0)
    else if slPct <= 0.40 then LeverageRange(15.0, 25.0)
    else if slPct <= 0.70 then LeverageRange(8.0, 15.0)
    else if slPct <= 1.50 then LeverageRange(5.0, 8.0)
    else LeverageRange(3.0, 5.0)
  }

  /** A wider stop never earns a higher leverage recommendation. */
  lemma LeverageNonIncreasing(a: real, b: real)
    requires 0.0 < a <= b
    ensures LeverageRangeForSl(b).levMin <= LeverageRangeForSl(a).levMin
    ensures LeverageRangeForSl(b).levMax <= LeverageRangeForSl(a).levMax
  {
  }

  /** Each band of the table, stated by its bounds. */
  lemma LeverageBands(slPct: real)
    ensures slPct <= 0.0 ==> LeverageRangeForSl(slPct) == LeverageRange(5.0, 10.0)
    ensures 0.0 < slPct <= 0.25 ==> LeverageRangeForSl(slPct) == LeverageRange(20.0, 30.0)
    ensures 0.25 < slPct <= 0.40 ==> LeverageRangeForSl(slPct) == LeverageRange(15.0, 25.0)
    ensures 0.40 < slPct <= 0.70 ==> LeverageRangeForSl(slPct) == LeverageRange(8.0, 15.0)
    ensures 0.70 < slPct <= 1.50 ==> LeverageRangeForSl(slPct) == LeverageRange(5.0, 8.0)
    ensures 1.50 < slPct ==> LeverageRangeForSl(slPct) == LeverageRange(3.0, 5.0)
  {
  }

  /** The chop weights are non-negative and sum to one, so the weighted
      blend of three ratios in [0,1] is itself in [0,1]. */
  predicate ChopWeightsNormalized(s: BehaviourSettings)
  {
    && s.chopWeightColorFlip >= 0.0
    && s.chopWeightSmallBody >= 0.0
    && s.chopWeightTwoSidedWick >= 0.0
    && s.chopWeightColorFlip + s.chopWeightSmallBody + s.chopWeightTwoSidedWick == 1.0
  }

  /** The consistency the default configuration has: normalized chop
      weights, ordered chop thresholds, a non-empty "A" tier band and a
      non-negative minimum reward-to-risk. */
  predicate WellFormed(s: BehaviourSettings)
  {
    && ChopWeightsNormalized(s)
    && s.chopLowThreshold < s.chopHighThreshold
    && s.minScoreToSend + 10.0 < s.aPlusScore
    && s.minRrTp2 >= 0.0
  }

  lemma DefaultWellFormed()
    ensures WellFormed(Default)
    ensures Default.chopWeightColorFlip + Default.chopWeightSmallBody + Default.chopWeightTwoSidedWick == 1.0
    ensures Default.chopLowThreshold < Default.chopHighThreshold
    ensures Default.minScoreToSend + 10.0 < Default.aPlusScore
  {
  }
}
