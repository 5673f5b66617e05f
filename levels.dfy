/** Entry, stop-loss and take-profit levels for a chosen side: the entry is
    anchored on the last candle, the raw stop sits a buffer beyond its
    extreme and is then moved into the stop-loss percentage band, a zero
    risk falls back to 0.3% of the entry, the targets are reward-to-risk
    multiples scaled by the opportunity score, and the leverage comes from
    the static table. Any side other than `Long` is treated as short. */
module Levels {
  import opened Common
  import opened Settings
  import opened Features
  import opened Categories

  // ---------------------------------------------------------------------
  // Reward-to-risk factors
  // ---------------------------------------------------------------------

  datatype RrFactors = RrFactors(rr1: real, rr2: real, rr3: real)

  /** The score clamped to [0,100] and scaled to [0,1]. */
  function NormalizedScore(score: real): (n: real)
    ensures 0.0 <= n <= 1.0
    ensures 0.0 <= score <= 100.0 ==> n * 100.0 == score
  {
    Clamp(score, 0.0, 100.0) / 100.0
  }

  /** TP2's multiple runs from `minRr` at score 0 to `minRr + 0.8` at 100;
      TP1 is 70% of it and TP3 0.8 beyond it. */
  function DynamicRrFactors(score: real, minRr: real): (r: RrFactors)
    ensures minRr <= r.rr2 <= minRr + 0.8
    ensures r.rr1 == 0.7 * r.rr2
    ensures r.rr3 == r.rr2 + 0.8
    ensures score <= 0.0 ==> r.rr2 == minRr
    ensures score >= 100.0 ==> r.rr2 == minRr + 0.8
  {
    var sNorm := NormalizedScore(score);
    var maxRr2 := minRr + 0.8;
    var rr2 := minRr + (maxRr2 - minRr) * sNorm;
    RrFactors(0.7 * rr2, rr2, rr2 + 0.8)
  }

  /** A higher score never shortens the targets. */
  lemma RrFactorsMonotone(score1: real, score2: real, minRr: real)
    requires score1 <= score2
    ensures DynamicRrFactors(score1, minRr).rr2 <= DynamicRrFactors(score2, minRr).rr2
  {
    ClampMonotone(score1, score2, 0.0, 100.0);
  }

  // ---------------------------------------------------------------------
  // Stop-loss band
  // ---------------------------------------------------------------------

  datatype StopLoss = StopLoss(sl: real, slPct: real)

  /** Distance from entry to stop as a percentage of a positive entry. */
  function StopPct(entry: real, sl: real): real
    requires entry > 0.0
  {
    Abs(entry - sl) / entry * 100.0
  }

  /** A stop exactly `pct` percent of the entry away, on the loss side. */
  function StopAtPct(side: Bias, entry: real, pct: real): real
  {
    var riskTarget := entry * pct / 100.0;
    if side == Long then entry - riskTarget else entry + riskTarget
  }

  lemma StopAtPctDistance(side: Bias, entry: real, pct: real)
    requires entry > 0.0 && pct >= 0.0
    ensures StopPct(entry, StopAtPct(side, entry, pct)) == pct
    ensures side == Long ==> StopAtPct(side, entry, pct) <= entry
    ensures side != Long ==> StopAtPct(side, entry, pct) >= entry
    ensures pct > 0.0 ==> StopAtPct(side, entry, pct) != entry
  {
    var q := pct / 100.0;
    var riskTarget := entry * pct / 100.0;
    assert riskTarget == q * entry;
    ProductNonNegative(q, entry);
    assert Abs(entry - StopAtPct(side, entry, pct)) == riskTarget;
    DivideOut(q, entry);
  }

  lemma DivideOut(a: real, b: real)
    requires b > 0.0
    ensures (a * b) / b == a
  {
    assert (a * b) / b * b == a * b;
  }

  /** `_adjust_sl_to_bounds`: nothing to do for a non-positive entry; a stop
      closer than the band's minimum or farther than its maximum is moved
      to that bound on the loss side; a stop inside the band is kept. */
  function AdjustSlToBounds(side: Bias, entry: real, slRaw: real, band: SlBand): (r: StopLoss)
    ensures entry <= 0.0 ==> r == StopLoss(slRaw, 0.0)
    ensures entry > 0.0 && 0.0 <= band.minSlPct <= band.maxSlPct ==>
      && band.minSlPct <= r.slPct <= band.maxSlPct
      && r.slPct == StopPct(entry, r.sl)
    ensures entry > 0.0 && band.minSlPct <= StopPct(entry, slRaw) <= band.maxSlPct ==>
      r == StopLoss(slRaw, StopPct(entry, slRaw))
    ensures entry > 0.0 && 0.0 <= band.minSlPct <= band.maxSlPct && r.sl != slRaw ==>
      (side == Long ==> r.sl <= entry) && (side != Long ==> r.sl >= entry)
  {
    if entry <= 0.0 then StopLoss(slRaw, 0.0)
    else
      var slPct := StopPct(entry, slRaw);
      if slPct < band.minSlPct then
        StopAtPctDistance(side, entry, band.minSlPct);
        StopLoss(StopAtPct(side, entry, band.minSlPct), band.minSlPct)
      else if slPct > band.maxSlPct then
        if band.maxSlPct >= 0.0 then
          StopAtPctDistance(side, entry, band.maxSlPct);
          StopLoss(StopAtPct(side, entry, band.maxSlPct), band.maxSlPct)
        else
          StopLoss(StopAtPct(side, entry, band.maxSlPct), band.maxSlPct)
      else StopLoss(slRaw, slPct)
  }

  // ---------------------------------------------------------------------
  // Levels
  // ---------------------------------------------------------------------

  datatype TradeLevels = TradeLevels(
    entry: real, sl: real, tp1: real, tp2: real, tp3: real, slPct: real, levMin: real, levMax: real)

  /** The positive floor under the last candle's range. */
  const RangeFloor: real := 0.000000001

  /** Anchored entry and buffered raw stop for a side, from the last candle. */
  function RawEntryAndStop(side: Bias, last: Candle, avgRange: real): (r: (real, real))
    ensures side == Long ==> r.0 <= last.close
    ensures side != Long ==> r.0 >= last.close
    ensures WellFormedCandle(last) && avgRange >= 0.0 ==>
      (side == Long ==> r.1 < last.low <= r.0) && (side != Long ==> r.0 <= last.high < r.1)
  {
    var rng := Max(last.high - last.low, RangeFloor);
    var buffer := 0.15 * rng + 0.10 * avgRange;
    if side == Long then (Min(last.low + 0.25 * rng, last.close), last.low - buffer)
    else (Max(last.high - 0.25 * rng, last.close), last.high + buffer)
  }

  /** The stop after the band, or the 0.3% fallback when it left no risk. */
  function FinalStop(side: Bias, entry: real, adjusted: StopLoss): (r: StopLoss)
    ensures Abs(entry - adjusted.sl) > 0.0 ==> r == adjusted
    ensures entry != 0.0 ==> Abs(entry - r.sl) > 0.0
    ensures Abs(entry - adjusted.sl) <= 0.0 ==>
      Abs(entry - r.sl) == Abs(entry) * 0.003
      && (side == Long ==> r.sl <= entry) && (side != Long ==> r.sl >= entry)
    // the percentage stays the true distance of the final stop
    ensures entry > 0.0 && adjusted.slPct == StopPct(entry, adjusted.sl) ==> r.slPct == StopPct(entry, r.sl)
  {
    var risk := Abs(entry - adjusted.sl);
    if risk <= 0.0 then
      var fallback := Abs(entry) * 0.003;
      var sl := if side == Long then entry - fallback else entry + fallback;
      StopLoss(sl, if entry != 0.0 then fallback / entry * 100.0 else 0.0)
    else adjusted
  }

  /** A target `k` risks away from the entry in the side's favour. */
  function TargetAt(side: Bias, entry: real, risk: real, k: real): real
  {
    if side == Long then entry + k * risk else entry - k * risk
  }

  lemma TargetAtDistance(side: Bias, entry: real, risk: real, k: real)
    requires k >= 0.0 && risk >= 0.0
    ensures Abs(TargetAt(side, entry, risk, k) - entry) == k * risk
    ensures side == Long ==> TargetAt(side, entry, risk, k) >= entry
    ensures side != Long ==> TargetAt(side, entry, risk, k) <= entry
  {
    ProductNonNegative(k, risk);
  }

  /** A larger multiple puts the target farther from the entry. */
  lemma TargetAtMonotone(side: Bias, entry: real, risk: real, k1: real, k2: real)
    requires k1 <= k2 && risk >= 0.0
    ensures side == Long ==> TargetAt(side, entry, risk, k1) <= TargetAt(side, entry, risk, k2)
    ensures side != Long ==> TargetAt(side, entry, risk, k1) >= TargetAt(side, entry, risk, k2)
  {
    ProductMonotone(k1, k2, risk);
    var t1, t2 := TargetAt(side, entry, risk, k1), TargetAt(side, entry, risk, k2);
    if side == Long {
      assert t1 == entry + k1 * risk && t2 == entry + k2 * risk;
    } else {
      assert t1 == entry - k1 * risk && t2 == entry - k2 * risk;
    }
  }

  /** `build_levels` for a non-empty candle list. */
  function BuildLevels(side: Bias, candles: seq<Candle>, f: FeatureRecord, oppScore: real,
                       band: SlBand, s: BehaviourSettings): (r: TradeLevels)
    requires |candles| > 0
    ensures side == Long ==> r.entry <= candles[|candles| - 1].close
    ensures side != Long ==> r.entry >= candles[|candles| - 1].close
    ensures r.levMin == LeverageRangeForSl(r.slPct).levMin && r.levMax == LeverageRangeForSl(r.slPct).levMax
    ensures r.entry != 0.0 ==> Abs(r.entry - r.sl) > 0.0
    ensures 0.0 <= band.minSlPct <= band.maxSlPct && r.entry > 0.0 ==> r.slPct == StopPct(r.entry, r.sl)
    ensures var risk, rr := Abs(r.entry - r.sl), DynamicRrFactors(oppScore, s.minRrTp2);
      && r.tp1 == TargetAt(side, r.entry, risk, rr.rr1)
      && r.tp2 == TargetAt(side, r.entry, risk, rr.rr2)
      && r.tp3 == TargetAt(side, r.entry, risk, rr.rr3)
  {
    var last := candles[|candles| - 1];
    var raw := RawEntryAndStop(side, last, f.avgRange);
    var entry := if raw.0 == 0.0 then last.close else raw.0;
    var stop := FinalStop(side, entry, AdjustSlToBounds(side, entry, raw.1, band));
    var risk := Abs(entry - stop.sl);
    var rr := DynamicRrFactors(oppScore, s.minRrTp2);
    var lev := LeverageRangeForSl(stop.slPct);
    TradeLevels(entry, stop.sl, TargetAt(side, entry, risk, rr.rr1), TargetAt(side, entry, risk, rr.rr2),
      TargetAt(side, entry, risk, rr.rr3), stop.slPct, lev.levMin, lev.levMax)
  }

  // ---------------------------------------------------------------------
  // Properties of the levels
  // ---------------------------------------------------------------------

  lemma ProductNonNegative(a: real, b: real)
    requires a >= 0.0 && b >= 0.0
    ensures a * b >= 0.0
  {
  }

  lemma ProductMonotone(a: real, b: real, k: real)
    requires a <= b && k >= 0.0
    ensures a * k <= b * k
  {
  }

  /** With a non-negative minimum multiple the targets are ordered away
      from the entry, TP2's distance is exactly its multiple of the risk,
      and that multiple is at least the minimum. */
  lemma TargetsOrdered(side: Bias, candles: seq<Candle>, f: FeatureRecord, oppScore: real,
                       band: SlBand, s: BehaviourSettings)
    requires |candles| > 0 && s.minRrTp2 >= 0.0
    ensures TargetsInOrder(side, BuildLevels(side, candles, f, oppScore, band, s))
    ensures RewardAtLeast(BuildLevels(side, candles, f, oppScore, band, s), DynamicRrFactors(oppScore, s.minRrTp2).rr2, s.minRrTp2)
  {
    TargetsFromFactors(side, BuildLevels(side, candles, f, oppScore, band, s), DynamicRrFactors(oppScore, s.minRrTp2), s.minRrTp2);
  }

  /** Targets TP1..TP3 sit entry-side-first in the side's favour. */
  predicate TargetsInOrder(side: Bias, r: TradeLevels)
  {
    && (side == Long ==> r.entry <= r.tp1 <= r.tp2 <= r.tp3)
    && (side != Long ==> r.entry >= r.tp1 >= r.tp2 >= r.tp3)
  }

  /** TP2's distance from the entry is `rr2` risks, at least `minRr` risks. */
  predicate RewardAtLeast(r: TradeLevels, rr2: real, minRr: real)
  {
    && Abs(r.tp2 - r.entry) == rr2 * Abs(r.entry - r.sl)
    && Abs(r.tp2 - r.entry) >= minRr * Abs(r.entry - r.sl)
  }

  lemma TargetsFromFactors(side: Bias, r: TradeLevels, rr: RrFactors, minRr: real)
    requires 0.0 <= minRr <= rr.rr2 && rr.rr1 == 0.7 * rr.rr2 && rr.rr3 == rr.rr2 + 0.8
    requires r.tp1 == TargetAt(side, r.entry, Abs(r.entry - r.sl), rr.rr1)
    requires r.tp2 == TargetAt(side, r.entry, Abs(r.entry - r.sl), rr.rr2)
    requires r.tp3 == TargetAt(side, r.entry, Abs(r.entry - r.sl), rr.rr3)
    ensures TargetsInOrder(side, r) && RewardAtLeast(r, rr.rr2, minRr)
  {
    var risk := Abs(r.entry - r.sl);
    TargetAtDistance(side, r.entry, risk, rr.rr1);
    TargetAtDistance(side, r.entry, risk, rr.rr2);
    TargetAtMonotone(side, r.entry, risk, rr.rr1, rr.rr2);
    TargetAtMonotone(side, r.entry, risk, rr.rr2, rr.rr3);
    ProductMonotone(minRr, rr.rr2, risk);
    assert Abs(r.tp2 - r.entry) == rr.rr2 * risk;
    assert minRr * risk <= rr.rr2 * risk;
  }

  /** For a well-formed last candle, a non-negative mean range and a band
      with 0 <= min <= max, the stop is on the loss side of the entry:
      below it for long, above it for short. */
  lemma StopOnLossSide(side: Bias, candles: seq<Candle>, f: FeatureRecord, oppScore: real,
                       band: SlBand, s: BehaviourSettings)
    requires |candles| > 0 && WellFormedCandle(candles[|candles| - 1]) && f.avgRange >= 0.0
    requires 0.0 <= band.minSlPct <= band.maxSlPct
    ensures var r := BuildLevels(side, candles, f, oppScore, band, s);
      (side == Long ==> r.sl <= r.entry) && (side != Long ==> r.sl >= r.entry)
  {
    var last := candles[|candles| - 1];
    var raw := RawEntryAndStop(side, last, f.avgRange);
    var entry := if raw.0 == 0.0 then last.close else raw.0;
    assert side == Long ==> raw.1 < entry;
    assert side != Long ==> raw.1 > entry;
  }
}
