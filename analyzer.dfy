/** The entry point for one symbol: features, categories, aggregation,
    then a short-circuiting chain of gates (candle count, features,
    direction, minimum score, anti-countertrend filter, risk, reward-to-risk
    at TP2, tier) that either drops the opportunity or returns a signal
    carrying the levels unchanged. */
module Analyzer {
  import opened Common
  import opened Settings
  import opened Features
  import opened Categories
  import opened Scoring
  import opened Levels

  // ---------------------------------------------------------------------
  // Tiers
  // ---------------------------------------------------------------------

  /** `A+` from the A+ score, `A` from ten above the minimum, `B` from the
      minimum, `NONE` below it. */
  function TierFromScore(score: real, s: BehaviourSettings): (t: string)
    ensures t in {"A+", "A", "B", "NONE"}
    ensures t == "A+" <==> score >= s.aPlusScore
    ensures t == "NONE" <==> score < s.aPlusScore && score < s.minScoreToSend + 10.0 && score < s.minScoreToSend
  {
    if score >= s.aPlusScore then "A+"
    else if score >= s.minScoreToSend + 10.0 then "A"
    else if score >= s.minScoreToSend then "B"
    else "NONE"
  }

  /** `order.get(name, default)` over NONE < B < A < A+. */
  function TierRank(name: string, default: nat): (k: nat)
    ensures name == "NONE" ==> k == 0
    ensures name == "B" ==> k == 1
    ensures name == "A" ==> k == 2
    ensures name == "A+" ==> k == 3
    ensures name !in {"NONE", "B", "A", "A+"} ==> k == default
  {
    if name == "NONE" then 0
    else if name == "B" then 1
    else if name == "A" then 2
    else if name == "A+" then 3
    else default
  }

  /** `state.min_tier or "A"` */
  function EffectiveMinTier(minTier: Option<string>): (t: string)
    ensures minTier.None? || minTier.value == "" ==> t == "A"
    ensures minTier.Some? && minTier.value != "" ==> t == minTier.value
  {
    if minTier.None? || minTier.value == "" then "A" else minTier.value
  }

  /** The tier passes when its rank (unknown: 0) reaches the minimum's rank
      (unknown: 2): with the order NONE < B < A < A+, each minimum lets
      through itself and the tiers above it; an unset or empty minimum means
      "A"; an unknown minimum acts as "A"; an unknown tier passes only the
      minimum "NONE". */
  function ShouldSendTier(tier: string, minTier: Option<string>): (b: bool)
    ensures EffectiveMinTier(minTier) == "NONE" ==> b
    ensures EffectiveMinTier(minTier) == "B" ==> (b <==> tier in {"B", "A", "A+"})
    ensures EffectiveMinTier(minTier) == "A" ==> (b <==> tier in {"A", "A+"})
    ensures EffectiveMinTier(minTier) == "A+" ==> (b <==> tier == "A+")
    ensures EffectiveMinTier(minTier) !in {"NONE", "B", "A", "A+"} ==> (b <==> tier in {"A", "A+"})
    ensures minTier.None? || minTier.value == "" ==> (b <==> tier in {"A", "A+"})
    ensures tier !in {"NONE", "B", "A", "A+"} ==> (b <==> EffectiveMinTier(minTier) == "NONE")
  {
    TierRank(tier, 0) >= TierRank(EffectiveMinTier(minTier), 2)
  }

  /** A higher score never earns a lower tier. */
  lemma TierMonotone(score1: real, score2: real, s: BehaviourSettings)
    requires score1 <= score2
    ensures TierRank(TierFromScore(score1, s), 0) <= TierRank(TierFromScore(score2, s), 0)
  {
  }

  /** With the minimum below the A+ bound by more than ten, each tier is
      exactly its score band. */
  lemma TierBands(score: real, s: BehaviourSettings)
    requires s.minScoreToSend + 10.0 < s.aPlusScore
    ensures TierFromScore(score, s) == "A" <==> s.minScoreToSend + 10.0 <= score < s.aPlusScore
    ensures TierFromScore(score, s) == "B" <==> s.minScoreToSend <= score < s.minScoreToSend + 10.0
    ensures TierFromScore(score, s) == "NONE" <==> score < s.minScoreToSend
  {
  }

  // ---------------------------------------------------------------------
  // Anti-countertrend filter
  // ---------------------------------------------------------------------

  /** An uptrend by leg (bull count above 1.2x bear count with positive net
      flow) or by the HTF read (bull dominance and upward drift). */
  predicate IsStrongBullEnv(f: FeatureRecord): (b: bool)
    ensures f.htfDom == BullDom && f.htfDrift == Up ==> b
    ensures b && !(f.htfDom == BullDom && f.htfDrift == Up) ==> f.bullCount > f.bearCount && f.netFlow > 0.0
    ensures f.netFlow <= 0.0 && f.htfDom != BullDom ==> !b
  {
    (f.bullCount as real > f.bearCount as real * 1.2 && f.netFlow > 0.0)
    || (f.htfDom == BullDom && f.htfDrift == Up)
  }

  /** The mirror: a downtrend by leg or by the HTF read. */
  predicate IsStrongBearEnv(f: FeatureRecord): (b: bool)
    ensures f.htfDom == BearDom && f.htfDrift == Down ==> b
    ensures b && !(f.htfDom == BearDom && f.htfDrift == Down) ==> f.bearCount > f.bullCount && f.netFlow < 0.0
    ensures f.netFlow >= 0.0 && f.htfDom != BearDom ==> !b
  {
    (f.bearCount as real > f.bullCount as real * 1.2 && f.netFlow < 0.0)
    || (f.htfDom == BearDom && f.htfDrift == Down)
  }

  /** A long in a strong downtrend without a downward flush, or a short in
      a strong uptrend without an upward flush, is rejected; no other side
      ever is. */
  function FailsAntiCountertrendFilter(side: Bias, f: FeatureRecord): (fails: bool)
    ensures fails <==>
      (side == Long && IsStrongBearEnv(f) && !f.hasFlushDown)
      || (side == Short && IsStrongBullEnv(f) && !f.hasFlushUp)
    ensures side == NoBias ==> !fails
  {
    if side == Long then IsStrongBearEnv(f) && !f.hasFlushDown
    else if side == Short then IsStrongBullEnv(f) && !f.hasFlushUp
    else false
  }

  /** With counts that are never negative, the leg-based strong bull and
      strong bear environments exclude each other. */
  lemma LegEnvironmentsExclusive(f: FeatureRecord)
    ensures !((f.bullCount as real > f.bearCount as real * 1.2 && f.netFlow > 0.0)
              && (f.bearCount as real > f.bullCount as real * 1.2 && f.netFlow < 0.0))
  {
  }

  // ---------------------------------------------------------------------
  // The gate chain
  // ---------------------------------------------------------------------

  /** The signal as returned: the side, the levels exactly as built, the
      tier and score, and the inputs it was derived from. The symbol and the
      rendered message text are not modelled. */
  datatype Signal = Signal(
    side: Bias, levels: TradeLevels, tier: string, score: real,
    htfContext: HtfRead, categories: Categories, features: FeatureRecord)

  /** `abs(tp2 - entry) / risk` */
  function RewardToRisk(lv: TradeLevels): real
    requires Abs(lv.entry - lv.sl) > 0.0
  {
    Abs(lv.tp2 - lv.entry) / Abs(lv.entry - lv.sl)
  }

  /** The gates after the feature stage, on a non-empty candle list and
      its feature record. */
  function AnalyzeFeatures(candles: seq<Candle>, f: FeatureRecord, s: BehaviourSettings, band: SlBand,
                           minTier: Option<string>): (r: Option<Signal>)
    requires |candles| > 0
    ensures var opp := AggregateOpportunity(f, EvalAllCategories(f, s), s);
      && (opp.direction == NoBias ==> r.None?)
      && (opp.score < s.minScoreToSend ==> r.None?)
      && (r.Some? ==>
            && r.value.side == opp.direction
            && r.value.score == opp.score
            && r.value.categories == EvalAllCategories(f, s)
            && r.value.features == f)
    ensures r.Some? ==>
      && r.value.side in {Long, Short}
      && r.value.score >= s.minScoreToSend
      && !FailsAntiCountertrendFilter(r.value.side, f)
      && r.value.levels == BuildLevels(r.value.side, candles, f, r.value.score, band, s)
      && Abs(r.value.levels.entry - r.value.levels.sl) > 0.0
      && RewardToRisk(r.value.levels) >= s.minRrTp2
      && r.value.tier == TierFromScore(r.value.score, s)
      && ShouldSendTier(r.value.tier, minTier)
    ensures var opp := AggregateOpportunity(f, EvalAllCategories(f, s), s);
      var side := if opp.direction == Long then Long else Short;
      var lv := BuildLevels(side, candles, f, opp.score, band, s);
      r.None? <==>
        || opp.direction == NoBias
        || opp.score < s.minScoreToSend
        || FailsAntiCountertrendFilter(side, f)
        || Abs(lv.entry - lv.sl) <= 0.0
        || RewardToRisk(lv) < s.minRrTp2
        || !ShouldSendTier(TierFromScore(opp.score, s), minTier)
  {
    var cats := EvalAllCategories(f, s);
    var opp := AggregateOpportunity(f, cats, s);
    if opp.direction == NoBias then None
    else if opp.score < s.minScoreToSend then None
    else
      var side := if opp.direction == Long then Long else Short;
      if FailsAntiCountertrendFilter(side, f) then None
      else
        var lv := BuildLevels(side, candles, f, opp.score, band, s);
        var risk := Abs(lv.entry - lv.sl);
        if risk <= 0.0 then None
        else if Abs(lv.tp2 - lv.entry) / risk < s.minRrTp2 then None
        else
          var tier := TierFromScore(opp.score, s);
          if !ShouldSendTier(tier, minTier) then None
          else Some(Signal(side, lv, tier, opp.score, HtfRead(f.htfDom, f.htfDrift, f.htfVolMode, f.htfWickBias),
            cats, f))
  }

  /** `analyze_symbol_behaviour` without its text rendering: too few
      candles or no features gives nothing; otherwise the gates decide. */
  function Analyze(candles: seq<Candle>, s: BehaviourSettings, band: SlBand, minTier: Option<string>): (r: Option<Signal>)
    ensures |candles| < s.minCandles ==> r.None?
    ensures candles == [] ==> r.None?
    ensures r.Some? ==> |candles| >= s.minCandles && ComputeFeatures(candles, s).Some?
    ensures r.Some? ==> r == AnalyzeFeatures(candles, ComputeFeatures(candles, s).value, s, band, minTier)
    ensures |candles| >= s.minCandles && candles != [] ==>
      r == AnalyzeFeatures(candles, ComputeFeatures(candles, s).value, s, band, minTier)
  {
    if |candles| < s.minCandles then None
    else
      var features := ComputeFeatures(candles, s);
      if features.None? then None
      else AnalyzeFeatures(candles, features.value, s, band, minTier)
  }

  /** A reward of at least `minRr` times a positive risk is a ratio of at
      least `minRr`. */
  lemma RatioAtLeast(reward: real, risk: real, minRr: real)
    requires risk > 0.0 && reward >= minRr * risk
    ensures reward / risk >= minRr
  {
    DivideOut(minRr, risk);
    assert reward / risk >= (minRr * risk) / risk;
  }

  /** Levels whose TP2 lies at least `minRr` risks away pass the gate. */
  lemma RewardGatePasses(lv: TradeLevels, rr2: real, minRr: real)
    requires RewardAtLeast(lv, rr2, minRr)
    ensures Abs(lv.entry - lv.sl) > 0.0 ==> RewardToRisk(lv) >= minRr
  {
    if Abs(lv.entry - lv.sl) > 0.0 {
      RatioAtLeast(Abs(lv.tp2 - lv.entry), Abs(lv.entry - lv.sl), minRr);
    }
  }

  /** With a non-negative minimum, the reward-to-risk gate never rejects:
      TP2 is always at least the minimum multiple of the risk away. */
  lemma RewardGateNeverRejects(side: Bias, candles: seq<Candle>, f: FeatureRecord, oppScore: real,
                               band: SlBand, s: BehaviourSettings)
    requires |candles| > 0 && s.minRrTp2 >= 0.0
    ensures var lv := BuildLevels(side, candles, f, oppScore, band, s);
      Abs(lv.entry - lv.sl) > 0.0 ==> RewardToRisk(lv) >= s.minRrTp2
  {
    TargetsOrdered(side, candles, f, oppScore, band, s);
    RewardGatePasses(BuildLevels(side, candles, f, oppScore, band, s), DynamicRrFactors(oppScore, s.minRrTp2).rr2, s.minRrTp2);
  }

  /** A long signal in a strong downtrend needs a downward flush, and a
      short one in a strong uptrend an upward flush. */
  lemma NoCountertrendWithoutFlush(candles: seq<Candle>, s: BehaviourSettings, band: SlBand, minTier: Option<string>)
    ensures var r := Analyze(candles, s, band, minTier);
      r.Some? ==>
        && (r.value.side == Long && IsStrongBearEnv(r.value.features) ==> r.value.features.hasFlushDown)
        && (r.value.side == Short && IsStrongBullEnv(r.value.features) ==> r.value.features.hasFlushUp)
  {
  }
}
