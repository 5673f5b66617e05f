/** The seven behaviour category detectors. Each reads the feature record
    and returns a score with an optional directional bias: threshold gates,
    bonuses, a penalty when the chop score is above the high threshold, and
    a fixed ceiling. */
module Categories {
  import opened Common
  import opened Settings
  import opened Features

  /** A category's (or the aggregate's) directional lean. */
  datatype Bias = Long | Short | NoBias

  datatype CategoryResult = CategoryResult(score: real, bias: Bias)

  const Nothing: CategoryResult := CategoryResult(0.0, NoBias)

  /** The chop condition shared by every detector's penalty. */
  predicate Choppy(f: FeatureRecord, s: BehaviourSettings)
  {
    f.chopScore > s.chopHighThreshold
  }

  // ---------------------------------------------------------------------
  // ELR: exhausted leg reversal
  // ---------------------------------------------------------------------

  /** The conditions under which ELR leans long: a falling leg whose bodies
      are shrinking, wicks not leaning to sell, price in the bottom 35%. */
  predicate ElrLong(f: FeatureRecord)
  {
    f.netFlow < 0.0 && f.bodyTrend < -0.05 && f.wickBias in {Buy, Mixed} && f.posInRange <= 0.35
  }

  /** The mirror: a rising leg with shrinking bodies near the top. */
  predicate ElrShort(f: FeatureRecord)
  {
    f.netFlow > 0.0 && f.bodyTrend < -0.05 && f.wickBias in {Sell, Mixed} && f.posInRange >= 0.65
  }

  function EvalElr(f: FeatureRecord, s: BehaviourSettings): (r: CategoryResult)
    ensures 0.0 <= r.score <= 25.0
    ensures f.bullCount + f.bearCount < 6 ==> r == Nothing
    ensures r.bias == Long <==> f.bullCount + f.bearCount >= 6 && ElrLong(f)
    ensures r.bias == Short <==> f.bullCount + f.bearCount >= 6 && ElrShort(f)
    ensures r.bias == NoBias <==> r.score == 0.0
    ensures r.bias != NoBias && !Choppy(f, s) ==> r.score >= 15.0
  {
    var total := f.bullCount + f.bearCount;
    if total < 6 then Nothing
    else
      var legStrength := Abs(f.netFlow) / Max(total as real, 1.0);
      if legStrength <= 0.0 then
        assert f.netFlow == 0.0 by { PositiveOver(Abs(f.netFlow), Max(total as real, 1.0)); }
        Nothing
      else
        var candidate :=
          if f.netFlow < 0.0 then
            if f.bodyTrend < -0.05 && f.wickBias in {Buy, Mixed} && f.posInRange <= 0.35
            then CategoryResult(15.0 + Max(0.0, (0.35 - f.posInRange) * 40.0), Long)
            else Nothing
          else if f.netFlow > 0.0 then
            if f.bodyTrend < -0.05 && f.wickBias in {Sell, Mixed} && f.posInRange >= 0.65
            then CategoryResult(15.0 + Max(0.0, (f.posInRange - 0.65) * 40.0), Short)
            else Nothing
          else Nothing;
        var penalized :=
          if candidate.score > 0.0 && Choppy(f, s) then candidate.score * 0.4 else candidate.score;
        CategoryResult(Clamp(penalized, 0.0, 25.0), candidate.bias)
  }

  /** A positive numerator over a positive denominator is positive. */
  lemma PositiveOver(a: real, b: real)
    requires a >= 0.0 && b > 0.0
    ensures a / b <= 0.0 ==> a == 0.0
  {
    if a > 0.0 {
      assert a / b * b == a;
    }
  }

  // ---------------------------------------------------------------------
  // FAR: flush and absorption reversal
  // ---------------------------------------------------------------------

  predicate FarLongFires(f: FeatureRecord)
  {
    f.hasFlushDown && f.posInRange <= 0.40
  }

  predicate FarShortFires(f: FeatureRecord)
  {
    f.hasFlushUp && f.posInRange >= 0.60
  }

  /** The long candidate's score: 18 plus 20 per unit of flush depth, plus 4
      for a buy wick bias or 1 for a mixed one. */
  function FarLongScore(f: FeatureRecord): (v: real)
    ensures f.flushDepthDown >= 0.0 ==> v >= 18.0
  {
    18.0 + f.flushDepthDown * 20.0 + (if f.wickBias == Buy then 4.0 else if f.wickBias == Mixed then 1.0 else 0.0)
  }

  function FarShortScore(f: FeatureRecord): (v: real)
    ensures f.flushDepthUp >= 0.0 ==> v >= 18.0
  {
    18.0 + f.flushDepthUp * 20.0 + (if f.wickBias == Sell then 4.0 else if f.wickBias == Mixed then 1.0 else 0.0)
  }

  function EvalFar(f: FeatureRecord, s: BehaviourSettings): (r: CategoryResult)
    ensures 0.0 <= r.score <= 30.0
    ensures !FarLongFires(f) && !FarShortFires(f) ==> r == Nothing
    ensures r.bias == Short <==>
      FarShortFires(f) && FarShortScore(f) > (if FarLongFires(f) then FarLongScore(f) else 0.0)
    ensures r.bias == Long <==>
      FarLongFires(f) && !(FarShortFires(f) && FarShortScore(f) > FarLongScore(f))
    // both candidates firing with equal scores keeps the long side
    ensures FarLongFires(f) && FarShortFires(f) && FarShortScore(f) == FarLongScore(f) ==> r.bias == Long
    ensures f.flushDepthDown >= 0.0 && f.flushDepthUp >= 0.0 ==> (r.bias == NoBias <==> r.score == 0.0)
  {
    var first := if FarLongFires(f) then CategoryResult(FarLongScore(f), Long) else Nothing;
    var chosen :=
      if FarShortFires(f) && FarShortScore(f) > first.score then CategoryResult(FarShortScore(f), Short)
      else first;
    var penalized := if chosen.score > 0.0 && Choppy(f, s) then chosen.score * 0.5 else chosen.score;
    CategoryResult(Clamp(penalized, 0.0, 30.0), chosen.bias)
  }

  /** The two FAR candidates never fire together: the position cannot be
      both at most 0.40 and at least 0.60, so the tie rule never decides. */
  lemma FarCandidatesExclusive(f: FeatureRecord)
    ensures !(FarLongFires(f) && FarShortFires(f))
  {
  }

  // ---------------------------------------------------------------------
  // CEC: compression then expansion, continuation
  // ---------------------------------------------------------------------

  /** The higher timeframe agrees with a bias by dominance or by drift. */
  predicate HtfAgrees(f: FeatureRecord, b: Bias)
  {
    if b == Long then f.htfDom == BullDom || f.htfDrift == Up
    else f.htfDom == BearDom || f.htfDrift == Down
  }

  function EvalCec(f: FeatureRecord, s: BehaviourSettings): (r: CategoryResult)
    ensures 0.0 <= r.score <= 20.0
    ensures f.netFlow == 0.0 || f.rangeTrend >= -0.05 ==> r == Nothing
    ensures r.bias == Long <==> f.netFlow > 0.0 && f.rangeTrend < -0.05
    ensures r.bias == Short <==> f.netFlow < 0.0 && f.rangeTrend < -0.05
    ensures r.bias != NoBias && !Choppy(f, s) ==>
      r.score == 10.0 + (if HtfAgrees(f, r.bias) then 6.0 else 0.0) + (if f.bodyTrend > -0.2 then 2.0 else 0.0)
    ensures r.bias != NoBias && Choppy(f, s) ==> 3.0 <= r.score <= 5.4
  {
    if Abs(f.netFlow) <= 0.0 then Nothing
    else if f.rangeTrend >= -0.05 then Nothing
    else
      var bias := if f.netFlow > 0.0 then Long else Short;
      var base := 10.0 + (if HtfAgrees(f, bias) then 6.0 else 0.0) + (if f.bodyTrend > -0.2 then 2.0 else 0.0);
      var score := if Choppy(f, s) then base * 0.3 else base;
      CategoryResult(Clamp(score, 0.0, 20.0), bias)
  }

  // ---------------------------------------------------------------------
  // MC: momentum collapse (context only, never directional)
  // ---------------------------------------------------------------------

  function EvalMc(f: FeatureRecord, s: BehaviourSettings): (r: CategoryResult)
    ensures r.bias == NoBias
    ensures 0.0 <= r.score <= 12.0
    ensures r.score > 0.0 <==> f.netFlow != 0.0 && f.bodyTrend <= -0.2 && f.wickBias == Mixed
    ensures r.score > 0.0 ==> r.score == (if Choppy(f, s) then 4.0 else 8.0)
  {
    if Abs(f.netFlow) <= 0.0 then Nothing
    else if f.bodyTrend > -0.2 then Nothing
    else if f.wickBias != Mixed then Nothing
    else
      var base := if Choppy(f, s) then 8.0 * 0.5 else 8.0;
      CategoryResult(Clamp(base, 0.0, 12.0), NoBias)
  }

  // ---------------------------------------------------------------------
  // VSDE: volatility squeeze, directional explosion
  // ---------------------------------------------------------------------

  function EvalVsde(f: FeatureRecord, s: BehaviourSettings): (r: CategoryResult)
    ensures 0.0 <= r.score <= 12.0
    ensures f.rangeTrend > -0.10 ==> r == Nothing
    ensures r.bias == Long <==> f.rangeTrend <= -0.10 && f.netFlow > 0.0
    ensures r.bias == Short <==> f.rangeTrend <= -0.10 && f.netFlow < 0.0
    // a squeeze with a flat leg still scores, without a bias
    ensures f.rangeTrend <= -0.10 ==> r.score > 0.0
    ensures f.rangeTrend <= -0.10 && !Choppy(f, s) ==>
      r.score == (if (r.bias == Long && f.htfDrift == Up) || (r.bias == Short && f.htfDrift == Down)
                  then 10.0 else 7.0)
  {
    if f.rangeTrend > -0.10 then Nothing
    else
      var bias := if f.netFlow > 0.0 then Long else if f.netFlow < 0.0 then Short else NoBias;
      var base :=
        if (bias == Long && f.htfDrift == Up) || (bias == Short && f.htfDrift == Down) then 10.0 else 7.0;
      var score := if Choppy(f, s) then base * 0.4 else base;
      CategoryResult(Clamp(score, 0.0, 12.0), bias)
  }

  // ---------------------------------------------------------------------
  // AWP: asymmetric wick pressure
  // ---------------------------------------------------------------------

  /** 6 plus twice the wick ratio capped at 3, or 10 when the opposite wick
      average is not positive. */
  function WickPressure(pressing: real, opposite: real): (v: real)
    ensures v <= 12.0
    ensures opposite <= 0.0 ==> v == 10.0
    ensures opposite > 0.0 && pressing >= 0.0 ==> 6.0 <= v
  {
    if opposite > 0.0 then
      var ratio := pressing / opposite;
      assert pressing >= 0.0 ==> ratio >= 0.0 by { RatioAgainstOne(pressing, opposite); }
      6.0 + Min(ratio, 3.0) * 2.0
    else 10.0
  }

  function EvalAwp(f: FeatureRecord, s: BehaviourSettings): (r: CategoryResult)
    ensures 0.0 <= r.score <= 12.0
    ensures (f.avgUpWick <= 0.0 && f.avgDownWick <= 0.0) || f.wickBias == Mixed ==> r == Nothing
    ensures r.bias == Long <==> !(f.avgUpWick <= 0.0 && f.avgDownWick <= 0.0) && f.wickBias == Buy
    ensures r.bias == Short <==> !(f.avgUpWick <= 0.0 && f.avgDownWick <= 0.0) && f.wickBias == Sell
    ensures r.bias == NoBias ==> r.score == 0.0
    ensures r.bias == Long && !Choppy(f, s) ==> r.score == Max(0.0, WickPressure(f.avgDownWick, f.avgUpWick))
    ensures r.bias == Short && !Choppy(f, s) ==> r.score == Max(0.0, WickPressure(f.avgUpWick, f.avgDownWick))
  {
    if f.avgUpWick <= 0.0 && f.avgDownWick <= 0.0 then Nothing
    else
      var candidate :=
        if f.wickBias == Buy then CategoryResult(WickPressure(f.avgDownWick, f.avgUpWick), Long)
        else if f.wickBias == Sell then CategoryResult(WickPressure(f.avgUpWick, f.avgDownWick), Short)
        else Nothing;
      if candidate.bias == NoBias then Nothing
      else
        var score := if Choppy(f, s) then candidate.score * 0.7 else candidate.score;
        CategoryResult(Clamp(score, 0.0, 15.0), candidate.bias)
  }

  /** When the wick bias is the one the feature stage derives from the two
      wick averages, a biased AWP result always scores above 6: the pressing
      side's average exceeds 1.3 times the other. */
  lemma AwpScoresWhenBiased(f: FeatureRecord, s: BehaviourSettings)
    requires f.wickBias == WickBiasOf(f.avgUpWick, f.avgDownWick)
    ensures EvalAwp(f, s).bias != NoBias ==> EvalAwp(f, s).score > 6.0
  {
    if f.wickBias == Buy && f.avgUpWick > 0.0 {
      RatioAgainstOne(f.avgDownWick, 1.3 * f.avgUpWick);
      assert f.avgDownWick / f.avgUpWick == (f.avgDownWick / (1.3 * f.avgUpWick)) * 1.3;
    } else if f.wickBias == Sell && f.avgDownWick > 0.0 {
      RatioAgainstOne(f.avgUpWick, 1.3 * f.avgDownWick);
      assert f.avgUpWick / f.avgDownWick == (f.avgUpWick / (1.3 * f.avgDownWick)) * 1.3;
    }
  }

  // ---------------------------------------------------------------------
  // HBP: higher-timeframe behaviour pivot
  // ---------------------------------------------------------------------

  predicate HbpLongPivot(f: FeatureRecord)
  {
    (f.htfDom == BearDom || f.htfDrift == Down) && f.htfWickBias == Buy
  }

  predicate HbpShortPivot(f: FeatureRecord)
  {
    (f.htfDom == BullDom || f.htfDrift == Up) && f.htfWickBias == Sell
  }

  function EvalHbp(f: FeatureRecord, s: BehaviourSettings): (r: CategoryResult)
    ensures 0.0 <= r.score <= 10.0
    ensures f.htfDom == NoDom ==> r == Nothing
    ensures r.bias == Long <==> f.htfDom != NoDom && HbpLongPivot(f) && !HbpShortPivot(f)
    ensures r.bias == Short <==> f.htfDom != NoDom && HbpShortPivot(f) && !HbpLongPivot(f)
    ensures f.htfDom != NoDom && HbpLongPivot(f) && HbpShortPivot(f) ==> r == CategoryResult(4.0, NoBias)
    ensures r.bias != NoBias ==> r.score == 8.0
  {
    if f.htfDom == NoDom then Nothing
    else
      var first := if HbpLongPivot(f) then CategoryResult(8.0, Long) else Nothing;
      var second :=
        if HbpShortPivot(f) then
          if first.bias == Long then CategoryResult(4.0, NoBias) else CategoryResult(8.0, Short)
        else first;
      CategoryResult(Clamp(second.score, 0.0, 10.0), second.bias)
  }

  /** The pivot conflict never arises: the HTF wick bias cannot be both buy
      and sell, so HBP's score-4 unbiased result is unreachable. */
  lemma HbpPivotsExclusive(f: FeatureRecord)
    ensures !(HbpLongPivot(f) && HbpShortPivot(f))
  {
  }

  // ---------------------------------------------------------------------
  // All categories
  // ---------------------------------------------------------------------

  datatype Categories = Categories(
    elr: CategoryResult, far: CategoryResult, cec: CategoryResult, mc: CategoryResult,
    vsde: CategoryResult, awp: CategoryResult, hbp: CategoryResult)
  {
    /** The results in the order the source's dictionary literal lists them. */
    function AsSeq(): seq<CategoryResult>
    {
      [elr, far, cec, mc, vsde, awp, hbp]
    }
  }

  function EvalAllCategories(f: FeatureRecord, s: BehaviourSettings): (r: Categories)
    ensures r.mc.bias == NoBias
    ensures forall i :: 0 <= i < |r.AsSeq()| ==> r.AsSeq()[i].score >= 0.0
    ensures r.elr.score <= 25.0 && r.far.score <= 30.0 && r.cec.score <= 20.0 && r.mc.score <= 12.0
    ensures r.vsde.score <= 12.0 && r.awp.score <= 15.0 && r.hbp.score <= 10.0
  {
    Categories(EvalElr(f, s), EvalFar(f, s), EvalCec(f, s), EvalMc(f, s), EvalVsde(f, s), EvalAwp(f, s), EvalHbp(f, s))
  }
}
