# Behaviour engine — a Dafny model

This project models the behaviour-based signal engine of a crypto trading
bot. On every closed 5-minute candle the engine:

1. computes a **feature record**: leg flow, body and range means and their
   half-over-half trends, wick bias, position in the micro range, flush
   detection, a chop score and a virtual higher-timeframe (HTF) read;
2. runs seven **category detectors** (ELR, FAR, CEC, MC, VSDE, AWP, HBP),
   each giving a score and an optional bias;
3. **aggregates** them into one opportunity. A direction is taken only
   under a strict 1.3x dominance. Half the MC score is added, chop and
   counter-HTF dampening are applied, and the result is clamped to
   [0,150];
4. builds the **trade levels**: the entry, a buffered stop clamped into a
   stop-loss percentage band, targets scaled by reward-to-risk, and a
   leverage recommendation;
5. passes the result through a **gate chain**: candle count, features,
   direction, minimum score, the anti-countertrend filter, risk, RR at
   TP2, and tier.

There is one module per source file, plus a small `Common` module.

| module | file | source |
|---|---|---|
| `Common` | common.dfy | `Option`, `Abs`, `Max`, `Min`, `Clamp` |
| `Settings` | settings.dfy | behaviour/behaviour_settings.py |
| `Features` | features.dfy | behaviour/features.py |
| `Categories` | categories.dfy | behaviour/categories.py |
| `Scoring` | scoring.dfy | behaviour/scoring.py |
| `Levels` | levels.dfy | behaviour/levels.py |
| `Analyzer` | analyzer.dfy | behaviour/analyzer.py |

Modelling conventions:

- Prices and scores are Dafny `real`s.
- A candle is a record of four reals.
- The settings singleton becomes an explicit immutable `BehaviourSettings`
  parameter, and the minimum tier from the bot state an
  `Option<string>` parameter.
- The stop-loss band (`min_sl_pct`, `max_sl_pct`) is an explicit `SlBand`
  parameter, because the settings class does not define those two
  attributes.
- Most of the pipeline is written as functions.
- Three places in the source are loops updating accumulators:
  - the leg-flow pass;
  - the three counting passes of the chop score;
  - the per-bias sums of the direction choice.

  Each of these is a `method` with a loop. Its invariants tie the
  accumulators to a recursive specification function, and the rest of the
  pipeline uses that function.
- A string-valued classification (wick bias, dominance, drift, volatility
  mode, category bias) becomes a datatype. A missing bias (Python `None`)
  is `NoBias`.

## Model

| member | source | states |
|---|---|---|
| Settings.LeverageRangeForSl | behaviour/behaviour_settings.py:58-69 | the recommended minimum leverage is positive and below the maximum for every stop-loss percentage |
| Settings.LeverageBands | behaviour/behaviour_settings.py:59-69 | (5,10) for a non-positive SL%; (20,30), (15,25), (8,15), (5,8) up to the inclusive bounds 0.25, 0.40, 0.70, 1.50; (3,5) above |
| Settings.LeverageNonIncreasing | behaviour/behaviour_settings.py:61-69 | for positive SL%, a wider stop never raises either leverage bound |
| Settings.DefaultWellFormed | behaviour/behaviour_settings.py:24-41 | the defaults have chop weights summing to 1, low chop threshold below high, min score + 10 below the A+ score, and a non-negative RR minimum |
| Features.Body | behaviour/features.py:24-25 | the body is non-negative and is close−open or open−close |
| Features.Range | behaviour/features.py:28-29 | the range of a well-formed candle is at least its body |
| Features.UpperWick | behaviour/features.py:32-33 | the upper wick is non-negative iff the high is at or above both open and close |
| Features.LowerWick | behaviour/features.py:36-37 | the lower wick is non-negative iff the low is at or below both open and close |
| Features.CandleAnatomy | behaviour/features.py:24-37 | on a well-formed candle the wicks and range are non-negative and body + both wicks = range |
| Features.SafeMean | behaviour/features.py:14-15 | 0 for an empty list, otherwise mean × length = sum |
| Features.SafeMeanNonNegative | behaviour/features.py:14-15 | the mean of non-negative values is non-negative |
| Features.Window | behaviour/features.py:18-21 | a suffix of the input; the whole list when it is no longer than the length (or the length is 0); otherwise exactly the last `length` candles |
| Features.LegFlowOf | behaviour/features.py:40-62 | both body sums are non-negative; bull + bear + zero-body candles = the segment length, so zero-body candles are in neither count |
| Features.ComputeLegFlow | behaviour/features.py:40-62 | the loop computes exactly `LegFlowOf`, with net flow = bull sum − bear sum |
| Features.TrendFromHalves | behaviour/features.py:65-78 | 0 with fewer than 4 values or a non-positive first-half mean; otherwise second-half mean / first-half mean − 1, split at n div 2 |
| Features.TrendAtLeastMinusOne | behaviour/features.py:65-78 | on non-negative values the trend is never below −1 |
| Features.WickBiasOf | behaviour/features.py:81-89 | mixed when both averages are ≤ 0; buy iff down > 1.3·up (checked first); sell iff up > 1.3·down and not buy |
| Features.ComputeBasicStats | behaviour/features.py:92-113 | an empty segment gives all zeros; the body mean is ≥ 0 and the body trend ≥ −1 |
| Features.BasicStatsOfWellFormed | behaviour/features.py:92-113 | on well-formed candles the range and wick means are non-negative as well, and the range trend is at least −1 |
| Features.MinLow | behaviour/features.py:146 | the smallest low: attained and below every low |
| Features.MaxHigh | behaviour/features.py:147 | the largest high: attained and above every high |
| Features.History | behaviour/features.py:134 | the `lookback` candles just before the last one, excluding the last |
| Features.DetectFlush | behaviour/features.py:116-168 | no flush and zero depths when n < lookback+2, avg range ≤ 0 or a zero lookback (empty history); depths ≥ 0; each flag iff its depth ratio reaches the minimum (for a positive minimum); a depth is positive iff the last candle pierces every historical low (high) |
| Features.DepthRatio | behaviour/features.py:152-159 | max(0, extension) / avg range is ≥ 0 and positive iff the extension is |
| Features.HistoryLowsAbove | behaviour/features.py:146 | the history's minimum low is above x iff every history low is |
| Features.HistoryHighsBelow | behaviour/features.py:147 | the history's maximum high is below x iff every history high is |
| Features.ComputeMicroRange | behaviour/features.py:226-245 | position in [0,1]; (0,0,0.5) for an empty segment; the range spans every low and high; 0.5 when high ≤ low; otherwise the exact linear position of the last close when it lies inside the range |
| Features.PositionInRange | behaviour/features.py:239-243 | the clipped position is in [0,1], 0 at or below the low, 1 at or above the high, and exact in between |
| Features.Sign | behaviour/features.py:188 | 1, −1, 0 exactly for a positive, negative, zero body |
| Features.FlipsBound | behaviour/features.py:184-192 | flips plus the final sign indicator never exceed the candle count; zero flips while no non-doji candle was seen |
| Features.FlipsIgnoreDoji | behaviour/features.py:186-192 | removing zero-body candles leaves the flip scan unchanged, so flips are counted only between non-doji candles |
| Features.CountColorFlips | behaviour/features.py:184-193 | the loop computes exactly the flip count of `FlipScan` |
| Features.CountSmallBodies | behaviour/features.py:196-201 | the loop computes exactly the number of bodies below the threshold |
| Features.CountTwoSided | behaviour/features.py:204-214 | the loop computes exactly the number of candles with both wick ratios at or above the threshold, skipping zero ranges |
| Features.FlipDenominator | behaviour/features.py:193 | max(n−1, 1): at least 1, and n−1 from two candles on |
| Features.ColorFlipRatio | behaviour/features.py:193 | the flip ratio is in [0,1] |
| Features.SmallBodyRatio | behaviour/features.py:201 | the small-body ratio is in [0,1] |
| Features.TwoSidedRatio | behaviour/features.py:214 | the two-sided ratio is in [0,1] |
| Features.ChopRaw | behaviour/features.py:216-220 | with normalized weights the raw blend is in [0,1] |
| Features.ChopScoreOf | behaviour/features.py:171-223 | in [0,100]; 0 when n < 5 or avg body ≤ 0; otherwise, with normalized weights, exactly 100 × the raw blend |
| Features.ComputeChopScore | behaviour/features.py:171-223 | the three-loop computation equals `ChopScoreOf` |
| Features.DominanceOf | behaviour/features.py:267-272 | bull iff net flow > 0.25 × max(bull, bear); bear iff net flow < −that; a dominant side has the larger body sum |
| Features.DriftOf | behaviour/features.py:274-285 | flat unless the first close is positive; up iff the percentage change exceeds the tolerance; down iff it is below −tolerance |
| Features.VolModeOf | behaviour/features.py:288-304 | normal with fewer than 4 ranges or a non-positive first-half mean; otherwise expanding iff the second-half mean over the first-half mean exceeds 1.15 and contracting iff it is below 0.85 |
| Features.ComputeHtfVirtual | behaviour/features.py:248-318 | neutral (none, flat, normal, mixed) with fewer than 4 candles in the HTF window; the dominance iffs on that window's leg flow; drift only when the first close is positive and the change's magnitude exceeds the tolerance; with 4 or more candles the drift, volatility mode and wick bias are those of the window's first and last close, its ranges and its mean wicks |
| Features.ComputeFeatures | behaviour/features.py:321-389 | nothing iff the input is empty; otherwise non-negative flow sums, net = bull − bear, counts within the length, a non-negative body mean, body trend ≥ −1, position in [0,1], non-negative flush depths, chop in [0,100], last price = last close, and the wick bias derived from the two wick means |
| Categories.EvalElr | behaviour/categories.py:26-87 | score in [0,25]; (0, none) with fewer than 6 directional candles; long iff that count holds with net < 0, body trend < −0.05, wick buy or mixed and position ≤ 0.35; short the mirror; unbiased iff score 0; a biased result scores at least 15 when not choppy |
| Categories.EvalFar | behaviour/categories.py:94-146 | score in [0,30]; nothing when neither flush candidate fires; short iff its candidate fires and strictly beats the long one; long otherwise when long fires; a tie keeps long |
| Categories.FarCandidatesExclusive | behaviour/categories.py:113-139 | the two FAR candidates (position ≤ 0.40, position ≥ 0.60) never fire together |
| Categories.EvalCec | behaviour/categories.py:153-206 | score in [0,20]; (0, none) when net flow = 0 or range trend ≥ −0.05; otherwise the bias is the sign of net flow; exact score 10 + 6 (HTF agrees) + 2 (body trend > −0.2) when not choppy, 30% of it when choppy |
| Categories.EvalMc | behaviour/categories.py:213-248 | never biased; score in [0,12]; positive iff net ≠ 0, body trend ≤ −0.2 and wick mixed; then 8, or 4 when choppy |
| Categories.EvalVsde | behaviour/categories.py:255-296 | score in [0,12]; (0, none) when range trend > −0.10; long/short iff squeeze and the sign of net; a squeeze always scores, without a bias when net = 0; 10 with drift agreement, else 7, when not choppy |
| Categories.WickPressure | behaviour/categories.py:323-335 | 6 + 2·min(ratio, 3) is at most 12; 10 when the opposite wick mean is not positive; at least 6 for non-negative means |
| Categories.EvalAwp | behaviour/categories.py:303-344 | score in [0,12], within the 15 ceiling; (0, none) when both wick means are ≤ 0 or the bias is mixed; long iff buy, short iff sell; the exact wick-pressure score when not choppy |
| Categories.AwpScoresWhenBiased | behaviour/categories.py:317-338 | with the wick bias the feature stage derives, a biased AWP result scores above 6 |
| Categories.EvalHbp | behaviour/categories.py:351-389 | score in [0,10]; (0, none) when there is no HTF dominance; long/short iff its pivot holds alone; both pivots give (4, none); a biased result scores 8 |
| Categories.HbpPivotsExclusive | behaviour/categories.py:373-386 | the long and short pivots never hold together |
| Categories.EvalAllCategories | behaviour/categories.py:396-413 | MC is unbiased; every score is ≥ 0 and within its ceiling 25/30/20/12/12/15/10 |
| Scoring.DirectionOf | behaviour/scoring.py:29-44 | no direction when both sums are < 1; long iff long > 1.3·short; short iff short > 1.3·long and not long |
| Scoring.ChooseDirectionOf | behaviour/scoring.py:13-50 | the two sums are the per-bias sums and the direction is `DirectionOf` them |
| Scoring.ChooseDirection | behaviour/scoring.py:13-50 | the accumulating loop returns exactly `ChooseDirectionOf` |
| Scoring.DominanceExclusive | behaviour/scoring.py:39-44 | with non-negative sums the two dominance tests never both hold |
| Scoring.BiasSum | behaviour/scoring.py:21-27 | with non-negative scores a bias sum lies between 0 and the total of all scores |
| Scoring.BiasSumsPartition | behaviour/scoring.py:21-27 | long sum + short sum + unbiased sum = the total of all scores |
| Scoring.BiasSumAppend | behaviour/scoring.py:21-27 | a bias sum over a concatenation is the sum of the parts |
| Scoring.BiasSumRotate | behaviour/scoring.py:21 | a bias sum is unchanged when the categories are rotated (a + c against c + a) |
| Scoring.UnbiasedSumsZero | behaviour/scoring.py:24-27 | unbiased categories contribute nothing to the long or short sum |
| Scoring.AllUnbiasedNoDirection | behaviour/scoring.py:21-35 | when no category has a bias there is no direction |
| Scoring.CategorySumsNonNegative | behaviour/scoring.py:21-27 | on the detectors' output both bias sums are non-negative |
| Scoring.ChopFactor | behaviour/scoring.py:85-89 | ×0.35 at or above the high chop threshold; ×0.7 from the low threshold up to the high; ×1 below both |
| Scoring.HtfFactor | behaviour/scoring.py:91-100 | ×0.6 exactly when the direction opposes both the HTF dominance and the drift, otherwise ×1 |
| Scoring.DampenedScore | behaviour/scoring.py:84-102 | the dampened score is in [0,150] |
| Scoring.AggregateOpportunity | behaviour/scoring.py:53-110 | score in [0,150]; components are the categories; the sums are the bias sums; the direction is `DirectionOf` them; no direction forces 0; otherwise the dampened winning sum plus 0.5·MC |
| Scoring.DampenedScoreMonotone | behaviour/scoring.py:70-102 | the final score is non-decreasing in the winning sum |
| Scoring.UndampenedScore | behaviour/scoring.py:70-102 | with no chop and no counter-HTF dampening the score is min(winning + 0.5·MC, 150) |
| Levels.NormalizedScore | behaviour/levels.py:21 | the clamped score / 100 is in [0,1] and exact for scores in [0,100] |
| Levels.DynamicRrFactors | behaviour/levels.py:15-30 | rr2 in [min, min + 0.8], min at score ≤ 0 and min + 0.8 at score ≥ 100; rr1 = 0.7·rr2; rr3 = rr2 + 0.8 |
| Levels.RrFactorsMonotone | behaviour/levels.py:21-26 | rr2 is non-decreasing in the score |
| Levels.StopAtPctDistance | behaviour/levels.py:49-53 | a stop placed at pct% of the entry has SL% = pct and is on the loss side |
| Levels.AdjustSlToBounds | behaviour/levels.py:33-67 | (raw, 0) for entry ≤ 0; with 0 ≤ min ≤ max the SL% is in the band and equals the stop's true distance in percent; a stop already in the band is kept; a moved stop is below a long entry and above a short one |
| Levels.RawEntryAndStop | behaviour/levels.py:82-104 | a long entry is at most the last close and a short one at least it; on a well-formed candle the raw stop lies beyond the low (high), the entry not below the low (above the high) |
| Levels.FinalStop | behaviour/levels.py:113-122 | a positive risk keeps the adjusted stop; a zero risk becomes 0.3% of the entry on the loss side; a non-zero entry always has positive risk; for a positive entry the SL% stays the true distance of the final stop |
| Levels.TargetAtDistance | behaviour/levels.py:126-133 | a target k risks away lies at distance k·risk on the side's profit side |
| Levels.TargetAtMonotone | behaviour/levels.py:126-133 | a larger multiple puts the target further in the side's favour |
| Levels.BuildLevels | behaviour/levels.py:70-147 | entry vs the last close by side; leverage is exactly the table's value for the final SL%; positive risk for a non-zero entry; tp1..tp3 are the rr1..rr3 multiples of the final risk; for a positive entry and a band 0 ≤ min ≤ max the SL% is the distance from entry to the final stop |
| Levels.TargetsFromFactors | behaviour/levels.py:124-133 | targets built from the dynamic factors are ordered entry → tp1 → tp2 → tp3 in the side's favour, and TP2 is rr2 ≥ min risks away |
| Levels.TargetsOrdered | behaviour/levels.py:124-133 | for long entry ≤ tp1 ≤ tp2 ≤ tp3, for short the reverse; ‖tp2 − entry‖ = rr2·risk ≥ min_rr_tp2·risk |
| Levels.StopOnLossSide | behaviour/levels.py:93-122 | on a well-formed last candle the final stop is at or below a long entry and at or above a short one |
| Analyzer.TierFromScore | behaviour/analyzer.py:17-28 | one of A+, A, B, NONE; A+ iff score ≥ the A+ score; NONE iff below every threshold |
| Analyzer.TierBands | behaviour/analyzer.py:17-28 | when min + 10 is below the A+ score, A is exactly [min+10, A+), B exactly [min, min+10), NONE exactly below min |
| Analyzer.TierMonotone | behaviour/analyzer.py:17-28 | a higher score never gets a lower-ranked tier |
| Analyzer.TierRank | behaviour/analyzer.py:32-34 | NONE 0 < B 1 < A 2 < A+ 3; an unknown name gets the default |
| Analyzer.EffectiveMinTier | behaviour/analyzer.py:33 | an unset or empty minimum tier becomes "A" |
| Analyzer.ShouldSendTier | behaviour/analyzer.py:31-34 | with the order NONE < B < A < A+, a minimum lets through itself and the tiers above it (NONE: everything); an unset, empty or unknown minimum acts as A; an unknown tier passes only the minimum NONE |
| Analyzer.IsStrongBullEnv | behaviour/analyzer.py:37-52 | an HTF bull dominance with upward drift is strong; otherwise strength needs more bull than bear legs and a positive net flow; a non-positive flow without bull dominance is never strong |
| Analyzer.IsStrongBearEnv | behaviour/analyzer.py:55-68 | the mirror: HTF bear dominance with downward drift, or more bear legs with a negative net flow |
| Analyzer.FailsAntiCountertrendFilter | behaviour/analyzer.py:37-95 | true exactly for a long in a strong bear environment without a downward flush, or a short in a strong bull environment without an upward flush; never for another side |
| Analyzer.LegEnvironmentsExclusive | behaviour/analyzer.py:48-65 | the leg-based strong bull and strong bear conditions never both hold |
| Analyzer.AnalyzeFeatures | behaviour/analyzer.py:110-165 | nothing without a direction or under the minimum score; a signal has side long or short equal to the direction, the score ≥ minimum, passes the filter, carries `BuildLevels` unchanged, positive risk, RR at TP2 ≥ minimum, the score's tier, and a tier passing the minimum; nothing iff one of these gates fails |
| Analyzer.Analyze | behaviour/analyzer.py:98-165 | nothing with fewer than `min_candles` candles or an empty input; otherwise exactly `AnalyzeFeatures`, the gates on the computed features |
| Analyzer.RatioAtLeast | behaviour/analyzer.py:143 | a reward of at least min × a positive risk has ratio ≥ min |
| Analyzer.RewardGatePasses | behaviour/analyzer.py:139-146 | levels with TP2 at least min risks away pass the RR gate |
| Analyzer.RewardGateNeverRejects | behaviour/analyzer.py:139-146 | with a non-negative minimum the RR-at-TP2 gate never rejects levels built by `BuildLevels` |
| Analyzer.NoCountertrendWithoutFlush | behaviour/analyzer.py:126-136 | a long signal in a strong bear environment has a downward flush, a short one in a strong bull environment an upward flush |

## Left out

- Text rendering of the alert: the emoji, the number formatting, the validity text and the risk-calculator string. This is string formatting. The infinite position multiple in it cannot be reached.
- The symbol (`symbol.upper()`) and the message field of the result. The model's `Signal` has no symbol or text.
- The debug print and `core.bot_state.state`. The print is I/O; the minimum tier is a parameter instead.
- The candle type of `binance.ohlc_buffer` is not part of this model. It is replaced by a four-real record.
- IEEE floating point. All quantities are exact reals. The 1e-9 range floor is kept as a positive constant.
- The noise-floor and volatility-ceiling stop policy. Its settings are in the record, but no modelled code reads them.
- `min_sl_pct` and `max_sl_pct` are read by the stop-band clamp but are not attributes of the settings class, so the source would fail there. The model takes them as the explicit `SlBand` parameter. Where its ensures need it, they assume 0 ≤ min ≤ max.
- Dictionary lookups with defaults (`features.get(..., default)`, `cats.get("mc", {})`). The record always has every key, so the defaults never apply. `float(...)` conversions of values already numeric are left out the same way.
- Categories `_sign` (behaviour/categories.py:14-19) is defined but called by no evaluator in that file. The same sign function is modelled once, as `Features.Sign` in the chop scan.
- `Categories.EvalAwp`: the model proves the tighter bound 12. The source's clamp to 15 is never reached.
- Levels.AdjustSlToBounds: the band and loss-side ensures are stated for 0 ≤ min ≤ max. The source gives no guarantee for an inverted or negative band.
- Features.DetectFlush: the iff between each flag and its depth is stated only for a positive minimum depth ratio. With a non-positive minimum, the early returns report no flush at depth 0 although 0 reaches the minimum. The model returns what the source returns in both cases.
