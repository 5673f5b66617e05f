/** Feature extraction: from a window of candles (oldest first) to the named
    feature record every detector reads — leg flow, body/range statistics and
    their half-vs-half trends, wick bias, position in the micro range, flush
    detection, a chop score, and a virtual higher-timeframe (HTF) read. */
module Features {
  import opened Common
  import opened Settings

  datatype Candle = Candle(open: real, high: real, low: real, close: real)

  /** Open and close lie within [low, high]. */
  predicate WellFormedCandle(c: Candle)
  {
    c.low <= c.open <= c.high && c.low <= c.close <= c.high
  }

  predicate AllWellFormed(seg: seq<Candle>)
  {
    forall i :: 0 <= i < |seg| ==> WellFormedCandle(seg[i])
  }

  function Body(c: Candle): (r: real)
    ensures r >= 0.0
    ensures r == c.close - c.open || r == c.open - c.close
  {
    Abs(c.close - c.open)
  }

  /** High minus low: on a well-formed candle at least the body. */
  function Range(c: Candle): (r: real)
    ensures WellFormedCandle(c) ==> r >= Body(c)
  {
    c.high - c.low
  }

  /** High above the top of the body; non-negative exactly when the high
      is at or above both open and close. */
  function UpperWick(c: Candle): (r: real)
    ensures r >= 0.0 <==> c.high >= c.open && c.high >= c.close
  {
    c.high - Max(c.open, c.close)
  }

  /** Bottom of the body above the low; non-negative exactly when the low
      is at or below both open and close. */
  function LowerWick(c: Candle): (r: real)
    ensures r >= 0.0 <==> c.low <= c.open && c.low <= c.close
  {
    Min(c.open, c.close) - c.low
  }

  /** For a well-formed candle the body and the two wicks partition the range. */
  lemma CandleAnatomy(c: Candle)
    requires WellFormedCandle(c)
    ensures UpperWick(c) >= 0.0 && LowerWick(c) >= 0.0 && Range(c) >= 0.0
    ensures Body(c) + UpperWick(c) + LowerWick(c) == Range(c)
  {
  }

  /** `[f(c) for c in seg]` */
  function MapCandles(seg: seq<Candle>, f: Candle -> real): (r: seq<real>)
    ensures |r| == |seg|
    ensures forall i :: 0 <= i < |seg| ==> r[i] == f(seg[i])
  {
    seq(|seg|, i requires 0 <= i < |seg| => f(seg[i]))
  }

  // ---------------------------------------------------------------------
  // Means and windows
  // ---------------------------------------------------------------------

  function Sum(values: seq<real>): real
    decreases |values|
  {
    if values == [] then 0.0 else Sum(values[..|values| - 1]) + values[|values| - 1]
  }

  lemma {:induction false} SumNonNegative(values: seq<real>)
    requires forall i :: 0 <= i < |values| ==> values[i] >= 0.0
    ensures Sum(values) >= 0.0
    decreases |values|
  {
    if values != [] {
      SumNonNegative(values[..|values| - 1]);
    }
  }

  /** Mean of the values, 0 for an empty list. */
  function SafeMean(values: seq<real>): (r: real)
    ensures values == [] ==> r == 0.0
    ensures values != [] ==> r * (|values| as real) == Sum(values)
  {
    if |values| == 0 then 0.0 else Sum(values) / (|values| as real)
  }

  lemma SafeMeanNonNegative(values: seq<real>)
    requires forall i :: 0 <= i < |values| ==> values[i] >= 0.0
    ensures SafeMean(values) >= 0.0
  {
    SumNonNegative(values);
  }

  /** The trailing `length` candles. A list no longer than `length` is
      returned whole, and so is every list when `length` is 0, because the
      source slices with `candles[-length:]` and `-0` selects everything. */
  function Window(candles: seq<Candle>, length: nat): (r: seq<Candle>)
    ensures |r| <= |candles| && r == candles[|candles| - |r|..]
    ensures |candles| <= length ==> r == candles
    ensures 0 < length < |candles| ==> |r| == length
    ensures length == 0 ==> r == candles
  {
    if |candles| <= length || length == 0 then candles
    else candles[|candles| - length..]
  }

  // ---------------------------------------------------------------------
  // Leg flow
  // ---------------------------------------------------------------------

  /** Body sums and candle counts of the bullish and bearish candles. */
  datatype LegFlow = LegFlow(bullBodySum: real, bearBodySum: real, bullCount: nat, bearCount: nat)
  {
    function NetFlow(): real
    {
      bullBodySum - bearBodySum
    }
  }

  /** One candle's contribution: a close above the open adds its body to the
      bull side, a close below the open to the bear side, a zero body to
      neither. */
  function LegFlowStep(acc: LegFlow, c: Candle): LegFlow
  {
    var b := c.close - c.open;
    if b > 0.0 then acc.(bullBodySum := acc.bullBodySum + b, bullCount := acc.bullCount + 1)
    else if b < 0.0 then acc.(bearBodySum := acc.bearBodySum + Abs(b), bearCount := acc.bearCount + 1)
    else acc
  }

  /** Number of candles whose close equals their open. */
  function DojiCount(seg: seq<Candle>): nat
    decreases |seg|
  {
    if seg == [] then 0
    else DojiCount(seg[..|seg| - 1]) + (if seg[|seg| - 1].close == seg[|seg| - 1].open then 1 else 0)
  }

  /** The leg flow of a segment, as the source's loop accumulates it. */
  function LegFlowOf(seg: seq<Candle>): (r: LegFlow)
    ensures r.bullBodySum >= 0.0 && r.bearBodySum >= 0.0
    ensures r.bullCount + r.bearCount + DojiCount(seg) == |seg|
    decreases |seg|
  {
    if seg == [] then LegFlow(0.0, 0.0, 0, 0)
    else LegFlowStep(LegFlowOf(seg[..|seg| - 1]), seg[|seg| - 1])
  }

  /** `_leg_flow`: one pass over the segment updating four accumulators; the
      net flow is bull minus bear. */
  method ComputeLegFlow(segment: seq<Candle>) returns (flow: LegFlow, netFlow: real)
    ensures flow == LegFlowOf(segment)
    ensures netFlow == flow.bullBodySum - flow.bearBodySum
  {
    var bullBody, bearBody := 0.0, 0.0;
    var bullCount: nat, bearCount: nat := 0, 0;
    for i := 0 to |segment|
      invariant LegFlow(bullBody, bearBody, bullCount, bearCount) == LegFlowOf(segment[..i])
    {
      var c := segment[i];
      var b := c.close - c.open;
      if b > 0.0 {
        bullBody := bullBody + b;
        bullCount := bullCount + 1;
      } else if b < 0.0 {
        bearBody := bearBody + Abs(b);
        bearCount := bearCount + 1;
      }
      assert segment[..i + 1][..i] == segment[..i];
    }
    assert segment[..|segment|] == segment;
    flow := LegFlow(bullBody, bearBody, bullCount, bearCount);
    netFlow := bullBody - bearBody;
  }

  // ---------------------------------------------------------------------
  // Body / range statistics and wick bias
  // ---------------------------------------------------------------------

  /** Rough trend: (mean of the second half / mean of the first half) - 1,
      split at n/2; 0 for fewer than four values or a non-positive
      first-half mean. */
  function TrendFromHalves(values: seq<real>): (r: real)
    ensures |values| < 4 ==> r == 0.0
    ensures |values| >= 4 && SafeMean(values[..|values| / 2]) <= 0.0 ==> r == 0.0
    ensures |values| >= 4 && SafeMean(values[..|values| / 2]) > 0.0 ==>
      && (r + 1.0) * SafeMean(values[..|values| / 2]) == SafeMean(values[|values| / 2..])
      && (r > 0.0 <==> SafeMean(values[|values| / 2..]) > SafeMean(values[..|values| / 2]))
      && (r < 0.0 <==> SafeMean(values[|values| / 2..]) < SafeMean(values[..|values| / 2]))
  {
    var n := |values|;
    if n < 4 then 0.0
    else
      var mid := n / 2;
      var first := SafeMean(values[..mid]);
      var second := SafeMean(values[mid..]);
      if first <= 0.0 then 0.0
      else
        assert (second / first > 1.0 <==> second > first) && (second / first < 1.0 <==> second < first) by {
          RatioAgainstOne(second, first);
        }
        (second / first) - 1.0
  }

  lemma RatioAgainstOne(a: real, b: real)
    requires b > 0.0
    ensures a / b > 1.0 <==> a > b
    ensures a / b < 1.0 <==> a < b
    ensures a >= 0.0 ==> a / b >= 0.0
    ensures a <= 0.0 ==> a / b <= 0.0
    ensures a == b ==> a / b == 1.0
  {
    assert a / b * b == a;
  }

  /** Of non-negative values the trend never falls below -1. */
  lemma TrendAtLeastMinusOne(values: seq<real>)
    requires forall i :: 0 <= i < |values| ==> values[i] >= 0.0
    ensures TrendFromHalves(values) >= -1.0
  {
    if |values| >= 4 {
      var mid := |values| / 2;
      var first := SafeMean(values[..mid]);
      var second := SafeMean(values[mid..]);
      SafeMeanNonNegative(values[mid..]);
      if first > 0.0 {
        RatioAgainstOne(second, first);
      }
    }
  }

  datatype WickBias = Buy | Sell | Mixed

  /** "buy" when the lower wicks dominate by more than 1.3x, "sell" when the
      upper wicks do, "mixed" otherwise or when both averages are <= 0. The
      source tests "buy" first; the contract shows the order never matters. */
  function WickBiasOf(avgUp: real, avgDown: real): (r: WickBias)
    ensures avgUp <= 0.0 && avgDown <= 0.0 ==> r == Mixed
    ensures r == Buy <==> (avgUp > 0.0 || avgDown > 0.0) && avgDown > 1.3 * avgUp
    ensures r == Sell <==> (avgUp > 0.0 || avgDown > 0.0) && avgUp > 1.3 * avgDown
  {
    if avgUp <= 0.0 && avgDown <= 0.0 then Mixed
    else if avgDown > 1.3 * avgUp then Buy
    else if avgUp > 1.3 * avgDown then Sell
    else Mixed
  }

  datatype BasicStats = BasicStats(
    avgBody: real, avgRange: real, avgUpWick: real, avgDownWick: real,
    bodyTrend: real, rangeTrend: real)

  /** Means of body, range and both wicks over the segment, and the
      half-vs-half trends of body and range. */
  function ComputeBasicStats(seg: seq<Candle>): (r: BasicStats)
    ensures seg == [] ==> r == BasicStats(0.0, 0.0, 0.0, 0.0, 0.0, 0.0)
    ensures r.avgBody >= 0.0 && r.bodyTrend >= -1.0
  {
    var bodies := MapCandles(seg, Body);
    var ranges := MapCandles(seg, Range);
    var upWicks := MapCandles(seg, UpperWick);
    var downWicks := MapCandles(seg, LowerWick);
    SafeMeanNonNegative(bodies);
    TrendAtLeastMinusOne(bodies);
    BasicStats(SafeMean(bodies), SafeMean(ranges), SafeMean(upWicks), SafeMean(downWicks),
               TrendFromHalves(bodies), TrendFromHalves(ranges))
  }

  /** On well-formed candles every mean is non-negative and neither trend
      falls below -1. */
  lemma BasicStatsOfWellFormed(seg: seq<Candle>)
    requires AllWellFormed(seg)
    ensures var r := ComputeBasicStats(seg);
      r.avgRange >= 0.0 && r.avgUpWick >= 0.0 && r.avgDownWick >= 0.0 && r.rangeTrend >= -1.0
  {
    var ranges := MapCandles(seg, Range);
    var upWicks := MapCandles(seg, UpperWick);
    var downWicks := MapCandles(seg, LowerWick);
    forall i | 0 <= i < |seg| ensures ranges[i] >= 0.0 && upWicks[i] >= 0.0 && downWicks[i] >= 0.0 {
      CandleAnatomy(seg[i]);
    }
    SafeMeanNonNegative(ranges);
    SafeMeanNonNegative(upWicks);
    SafeMeanNonNegative(downWicks);
    TrendAtLeastMinusOne(ranges);
  }

  // ---------------------------------------------------------------------
  // Extremes, flush detection and the micro range
  // ---------------------------------------------------------------------

  /** `min(c.low for c in s)` */
  function MinLow(s: seq<Candle>): (r: real)
    requires |s| > 0
    ensures exists i :: 0 <= i < |s| && r == s[i].low
    ensures forall i :: 0 <= i < |s| ==> r <= s[i].low
    decreases |s|
  {
    if |s| == 1 then s[0].low
    else Min(MinLow(s[..|s| - 1]), s[|s| - 1].low)
  }

  /** `max(c.high for c in s)` */
  function MaxHigh(s: seq<Candle>): (r: real)
    requires |s| > 0
    ensures exists i :: 0 <= i < |s| && r == s[i].high
    ensures forall i :: 0 <= i < |s| ==> s[i].high <= r
    decreases |s|
  {
    if |s| == 1 then s[0].high
    else Max(MaxHigh(s[..|s| - 1]), s[|s| - 1].high)
  }

  datatype Flush = Flush(hasFlushDown: bool, hasFlushUp: bool, depthDown: real, depthUp: real)

  const NoFlush := Flush(false, false, 0.0, 0.0)

  /** The `lookback` candles before the last one (the last one excluded). */
  function History(candles: seq<Candle>, lookback: nat): (h: seq<Candle>)
    requires |candles| >= lookback + 1
    ensures |h| == lookback
    ensures forall k :: 0 <= k < lookback ==> h[k] == candles[|candles| - lookback - 1 + k]
  {
    candles[|candles| - (lookback + 1)..|candles| - 1]
  }

  /** Compares the last candle's low/high with the extremes of the preceding
      `lookback` candles; each extension beyond the prior extreme is measured
      in units of the mean range, and a flush is flagged when that ratio
      reaches `minDepthRatio`. Too little history, an empty history or a
      non-positive mean range gives no flush. */
  function DetectFlush(candles: seq<Candle>, avgRange: real, lookback: nat, minDepthRatio: real): (r: Flush)
    ensures r.depthDown >= 0.0 && r.depthUp >= 0.0
    ensures |candles| < lookback + 2 || avgRange <= 0.0 || lookback == 0 ==> r == NoFlush
    ensures r.hasFlushDown ==> r.depthDown >= minDepthRatio
    ensures r.hasFlushUp ==> r.depthUp >= minDepthRatio
    ensures minDepthRatio > 0.0 ==> (r.hasFlushDown <==> r.depthDown >= minDepthRatio)
    ensures minDepthRatio > 0.0 ==> (r.hasFlushUp <==> r.depthUp >= minDepthRatio)
    ensures r.depthDown > 0.0 <==>
      && lookback > 0 && |candles| >= lookback + 2 && avgRange > 0.0
      && forall j :: |candles| - lookback - 1 <= j < |candles| - 1 ==> candles[|candles| - 1].low < candles[j].low
    ensures r.depthUp > 0.0 <==>
      && lookback > 0 && |candles| >= lookback + 2 && avgRange > 0.0
      && forall j :: |candles| - lookback - 1 <= j < |candles| - 1 ==> candles[j].high < candles[|candles| - 1].high
  {
    var n := |candles|;
    if n < lookback + 2 || avgRange <= 0.0 then NoFlush
    else
      var last := candles[n - 1];
      var src := History(candles, lookback);
      if |src| == 0 then NoFlush
      else
        var prevMinLow := MinLow(src);
        var prevMaxHigh := MaxHigh(src);
        var depthDown := DepthRatio(prevMinLow - last.low, avgRange);
        var depthUp := DepthRatio(last.high - prevMaxHigh, avgRange);
        HistoryLowsAbove(candles, lookback, last.low);
        HistoryHighsBelow(candles, lookback, last.high);
        Flush(depthDown >= minDepthRatio, depthUp >= minDepthRatio, depthDown, depthUp)
  }

  /** `max(0, extension) / avgRange`: how far beyond the prior extreme, in
      mean ranges; positive exactly when the extreme was exceeded. */
  function DepthRatio(extension: real, avgRange: real): (d: real)
    requires avgRange > 0.0
    ensures d >= 0.0
    ensures d > 0.0 <==> extension > 0.0
  {
    RatioAgainstOne(Max(0.0, extension), avgRange);
    PositiveRatio(Max(0.0, extension), avgRange);
    Max(0.0, extension) / avgRange
  }

  /** The history's lowest low is above `x` iff every history low is. */
  lemma HistoryLowsAbove(candles: seq<Candle>, lookback: nat, x: real)
    requires lookback > 0 && |candles| >= lookback + 1
    ensures var n := |candles|;
      MinLow(History(candles, lookback)) > x <==> forall j :: n - lookback - 1 <= j < n - 1 ==> x < candles[j].low
  {
    var n, src := |candles|, History(candles, lookback);
    if MinLow(src) > x {
      forall j | n - lookback - 1 <= j < n - 1 ensures x < candles[j].low {
        assert src[j - (n - lookback - 1)] == candles[j];
      }
    } else {
      var k :| 0 <= k < |src| && MinLow(src) == src[k].low;
      assert candles[n - lookback - 1 + k] == src[k];
    }
  }

  /** The history's highest high is below `x` iff every history high is. */
  lemma HistoryHighsBelow(candles: seq<Candle>, lookback: nat, x: real)
    requires lookback > 0 && |candles| >= lookback + 1
    ensures var n := |candles|;
      MaxHigh(History(candles, lookback)) < x <==> forall j :: n - lookback - 1 <= j < n - 1 ==> candles[j].high < x
  {
    var n, src := |candles|, History(candles, lookback);
    if MaxHigh(src) < x {
      forall j | n - lookback - 1 <= j < n - 1 ensures candles[j].high < x {
        assert src[j - (n - lookback - 1)] == candles[j];
      }
    } else {
      var k :| 0 <= k < |src| && MaxHigh(src) == src[k].high;
      assert candles[n - lookback - 1 + k] == src[k];
    }
  }

  lemma PositiveRatio(a: real, b: real)
    requires b > 0.0 && a >= 0.0
    ensures a / b >= 0.0
    ensures a / b > 0.0 <==> a > 0.0
  {
    assert a / b * b == a;
  }

  datatype MicroRange = MicroRange(low: real, high: real, posInRange: real)

  /** Lowest low and highest high of the segment, and the last close's
      position between them, clamped to [0,1]; a degenerate range gives 0.5
      and an empty segment (0, 0, 0.5). */
  function ComputeMicroRange(seg: seq<Candle>): (r: MicroRange)
    ensures 0.0 <= r.posInRange <= 1.0
    ensures seg == [] ==> r == MicroRange(0.0, 0.0, 0.5)
    ensures seg != [] ==> forall i :: 0 <= i < |seg| ==> r.low <= seg[i].low && seg[i].high <= r.high
    ensures seg != [] ==>
      (exists i :: 0 <= i < |seg| && r.low == seg[i].low) && (exists i :: 0 <= i < |seg| && r.high == seg[i].high)
    ensures seg != [] && r.high <= r.low ==> r.posInRange == 0.5
    ensures seg != [] && r.low < r.high && r.low <= seg[|seg| - 1].close <= r.high ==>
      r.posInRange * (r.high - r.low) == seg[|seg| - 1].close - r.low
  {
    if seg == [] then MicroRange(0.0, 0.0, 0.5)
    else
      var microHigh := MaxHigh(seg);
      var microLow := MinLow(seg);
      var lastPrice := seg[|seg| - 1].close;
      if microHigh <= microLow then MicroRange(microLow, microHigh, 0.5)
      else MicroRange(microLow, microHigh, PositionInRange(lastPrice, microLow, microHigh))
  }

  /** `(price - low) / (high - low)` clamped to [0,1]; inside the range it is
      the exact fraction of the way from low to high. */
  function PositionInRange(price: real, low: real, high: real): (p: real)
    requires low < high
    ensures 0.0 <= p <= 1.0
    ensures price <= low ==> p == 0.0
    ensures price >= high ==> p == 1.0
    ensures low <= price <= high ==> p * (high - low) == price - low
  {
    var raw := (price - low) / (high - low);
    assert price >= low ==> raw >= 0.0 && raw * (high - low) == price - low by {
      if price >= low {
        PositiveRatio(price - low, high - low);
      }
    }
    assert (raw <= 1.0 <==> price <= high) && (raw >= 1.0 <==> price >= high) && (price <= low ==> raw <= 0.0) by {
      RatioAgainstOne(price - low, high - low);
    }
    if raw < 0.0 then 0.0 else if raw > 1.0 then 1.0 else raw
  }

  // ---------------------------------------------------------------------
  // Chop score
  // ---------------------------------------------------------------------

  /** The sign of a real as -1, 0 or 1 (a candle's colour when applied to
      close - open). */
  function Sign(x: real): (r: int)
    ensures r == 1 <==> x > 0.0
    ensures r == -1 <==> x < 0.0
    ensures r == 0 <==> x == 0.0
  {
    if x > 0.0 then 1 else if x < 0.0 then -1 else 0
  }

  /** The colour-flip scan's state: flips so far and the sign of the last
      non-doji candle (0 before the first one). */
  datatype FlipState = FlipState(flips: nat, prevSign: int)

  function FlipStep(st: FlipState, c: Candle): FlipState
  {
    var sign := Sign(c.close - c.open);
    var flips := if st.prevSign != 0 && sign != 0 && sign != st.prevSign then st.flips + 1 else st.flips;
    FlipState(flips, if sign != 0 then sign else st.prevSign)
  }

  function FlipScan(seg: seq<Candle>): FlipState
    decreases |seg|
  {
    if seg == [] then FlipState(0, 0) else FlipStep(FlipScan(seg[..|seg| - 1]), seg[|seg| - 1])
  }

  /** Number of candles whose body is below `threshold`. */
  function SmallBodyCount(seg: seq<Candle>, threshold: real): (k: nat)
    ensures k <= |seg|
    decreases |seg|
  {
    if seg == [] then 0
    else SmallBodyCount(seg[..|seg| - 1], threshold) + (if Body(seg[|seg| - 1]) < threshold then 1 else 0)
  }

  /** A candle of positive range whose upper and lower wicks both reach
      `ratio` of that range. */
  predicate TwoSided(c: Candle, ratio: real)
  {
    var r := Range(c);
    r > 0.0 && UpperWick(c) / r >= ratio && LowerWick(c) / r >= ratio
  }

  function TwoSidedCount(seg: seq<Candle>, ratio: real): (k: nat)
    ensures k <= |seg|
    decreases |seg|
  {
    if seg == [] then 0
    else TwoSidedCount(seg[..|seg| - 1], ratio) + (if TwoSided(seg[|seg| - 1], ratio) then 1 else 0)
  }

  /** max(n - 1, 1) */
  function FlipDenominator(n: nat): (d: nat)
    ensures d >= 1 && (n >= 2 ==> d == n - 1)
  {
    if n - 1 > 1 then n - 1 else 1
  }

  /** A count over a positive denominator, `k / d`; a count no larger than
      its denominator gives a fraction in [0,1]. */
  function CountRatio(k: nat, d: nat): (r: real)
    requires d > 0
    ensures k <= d ==> 0.0 <= r <= 1.0
  {
    if k <= d then UnitRatio(k as real, d as real); (k as real) / (d as real)
    else (k as real) / (d as real)
  }

  /** Colour flips per adjacent pair, `flips / max(n - 1, 1)`. */
  function ColorFlipRatio(seg: seq<Candle>): (r: real)
    ensures 0.0 <= r <= 1.0
  {
    FlipsBound(seg);
    CountRatio(FlipScan(seg).flips, FlipDenominator(|seg|))
  }

  /** Fraction of candles whose body is below `threshold`. */
  function SmallBodyRatio(seg: seq<Candle>, threshold: real): (r: real)
    requires |seg| > 0
    ensures 0.0 <= r <= 1.0
  {
    CountRatio(SmallBodyCount(seg, threshold), |seg|)
  }

  /** Fraction of candles with two large wicks. */
  function TwoSidedRatio(seg: seq<Candle>, ratio: real): (r: real)
    requires |seg| > 0
    ensures 0.0 <= r <= 1.0
  {
    CountRatio(TwoSidedCount(seg, ratio), |seg|)
  }

  /** One weighted term `w * x` of the chop blend; a non-negative weight
      times a ratio in [0,1] is at most the weight. */
  function Weighted(w: real, x: real): (r: real)
    ensures w >= 0.0 && 0.0 <= x <= 1.0 ==> 0.0 <= r <= w
  {
    w * x
  }

  /** The weighted blend of the flip, small-body and two-sided-wick ratios;
      under normalized weights a blend of ratios in [0,1] lies in [0,1]. */
  function ChopBlend(colorFlip: real, smallBody: real, twoSided: real, s: BehaviourSettings): (r: real)
    ensures ChopWeightsNormalized(s) && 0.0 <= colorFlip <= 1.0 && 0.0 <= smallBody <= 1.0 && 0.0 <= twoSided <= 1.0
      ==> 0.0 <= r <= 1.0
  {
    Weighted(s.chopWeightColorFlip, colorFlip)
      + Weighted(s.chopWeightSmallBody, smallBody)
      + Weighted(s.chopWeightTwoSidedWick, twoSided)
  }

  /** `small_body_factor * avg_body`, below which a body counts as small. */
  function SmallBodyThreshold(s: BehaviourSettings, avgBody: real): real
  {
    s.smallBodyFactor * avgBody
  }

  /** The raw chop value of a segment, before scaling to 0..100. */
  function ChopRaw(seg: seq<Candle>, avgBody: real, s: BehaviourSettings): (r: real)
    requires |seg| > 0
    ensures ChopWeightsNormalized(s) ==> 0.0 <= r <= 1.0
  {
    ChopBlend(ColorFlipRatio(seg), SmallBodyRatio(seg, SmallBodyThreshold(s, avgBody)),
      TwoSidedRatio(seg, s.bigWickRatio), s)
  }

  /** Chop score in [0,100] (higher means more directionless); 0 for fewer
      than five candles or a non-positive mean body. */
  function ChopScoreOf(seg: seq<Candle>, avgBody: real, s: BehaviourSettings): (r: real)
    ensures 0.0 <= r <= 100.0
    ensures |seg| < 5 || avgBody <= 0.0 ==> r == 0.0
    ensures |seg| >= 5 && avgBody > 0.0 && ChopWeightsNormalized(s) ==>
      r == ChopRaw(seg, avgBody, s) * 100.0
  {
    if |seg| < 5 || avgBody <= 0.0 then 0.0
    else Clamp(ChopRaw(seg, avgBody, s) * 100.0, 0.0, 100.0)
  }

  /** First pass of `_compute_chop_score`: colour flips between successive
      non-doji candles. */
  method CountColorFlips(segment: seq<Candle>) returns (flips: nat)
    ensures flips == FlipScan(segment).flips
  {
    var prevSign := 0;
    flips := 0;
    for i := 0 to |segment|
      invariant FlipState(flips, prevSign) == FlipScan(segment[..i])
    {
      var c := segment[i];
      var diff := c.close - c.open;
      var sign := if diff > 0.0 then 1 else (if diff < 0.0 then -1 else 0);
      if prevSign != 0 && sign != 0 && sign != prevSign {
        flips := flips + 1;
      }
      if sign != 0 {
        prevSign := sign;
      }
      assert segment[..i + 1][..i] == segment[..i];
    }
    assert segment[..|segment|] == segment;
  }

  /** Second pass: candles whose body is below `threshold`. */
  method CountSmallBodies(segment: seq<Candle>, threshold: real) returns (count: nat)
    ensures count == SmallBodyCount(segment, threshold)
  {
    count := 0;
    for i := 0 to |segment|
      invariant count == SmallBodyCount(segment[..i], threshold)
    {
      if Body(segment[i]) < threshold {
        count := count + 1;
      }
      assert segment[..i + 1][..i] == segment[..i];
    }
    assert segment[..|segment|] == segment;
  }

  /** Third pass: candles with a positive range whose upper and lower wick
      fractions both reach `ratio`. */
  method CountTwoSided(segment: seq<Candle>, ratio: real) returns (count: nat)
    ensures count == TwoSidedCount(segment, ratio)
  {
    count := 0;
    for i := 0 to |segment|
      invariant count == TwoSidedCount(segment[..i], ratio)
    {
      var c := segment[i];
      var r := Range(c);
      if r > 0.0 {
        var up := UpperWick(c) / r;
        var dn := LowerWick(c) / r;
        if up >= ratio && dn >= ratio {
          count := count + 1;
        }
      }
      assert segment[..i + 1][..i] == segment[..i];
    }
    assert segment[..|segment|] == segment;
  }

  /** `_compute_chop_score`: the three passes, their ratios, the weighted
      blend and the clamp to [0,100]. */
  method ComputeChopScore(segment: seq<Candle>, avgBody: real, s: BehaviourSettings) returns (chop: real)
    ensures chop == ChopScoreOf(segment, avgBody, s)
  {
    var n := |segment|;
    if n < 5 || avgBody <= 0.0 {
      return 0.0;
    }
    var flips := CountColorFlips(segment);
    var colorFlipRatio := CountRatio(flips, FlipDenominator(n));
    var threshold := SmallBodyThreshold(s, avgBody);
    var smallBodyCount := CountSmallBodies(segment, threshold);
    var smallBodyRatio := CountRatio(smallBodyCount, n);
    var twoSidedCount := CountTwoSided(segment, s.bigWickRatio);
    var twoSidedRatio := CountRatio(twoSidedCount, n);
    var raw := ChopBlend(colorFlipRatio, smallBodyRatio, twoSidedRatio, s);
    chop := Max(0.0, Min(raw * 100.0, 100.0));
    assert ChopRaw(segment, avgBody, s) == raw;
  }

  /** Flips are counted only between successive non-doji candles: at most one
      fewer flip than there are candles, none before the first non-doji. */
  lemma {:induction false} FlipsBound(seg: seq<Candle>)
    ensures FlipScan(seg).flips + (if FlipScan(seg).prevSign != 0 then 1 else 0) <= |seg|
    ensures FlipScan(seg).prevSign == 0 ==> FlipScan(seg).flips == 0
    decreases |seg|
  {
    if seg != [] {
      FlipsBound(seg[..|seg| - 1]);
    }
  }

  /** The segment with its zero-body (doji) candles removed. */
  function NonDoji(seg: seq<Candle>): seq<Candle>
    decreases |seg|
  {
    if seg == [] then []
    else if Sign(seg[|seg| - 1].close - seg[|seg| - 1].open) == 0 then NonDoji(seg[..|seg| - 1])
    else NonDoji(seg[..|seg| - 1]) + [seg[|seg| - 1]]
  }

  /** Doji candles neither flip nor reset the colour: removing them all
      leaves the flip scan unchanged. */
  lemma {:induction false} FlipsIgnoreDoji(seg: seq<Candle>)
    ensures FlipScan(NonDoji(seg)) == FlipScan(seg)
    decreases |seg|
  {
    if seg != [] {
      var init, last := seg[..|seg| - 1], seg[|seg| - 1];
      FlipsIgnoreDoji(init);
      if Sign(last.close - last.open) != 0 {
        var nd := NonDoji(init) + [last];
        assert nd[..|nd| - 1] == NonDoji(init);
      }
    }
  }

  lemma UnitRatio(a: real, b: real)
    requires 0.0 <= a <= b && b > 0.0
    ensures 0.0 <= a / b <= 1.0
  {
    RatioAgainstOne(a, b);
  }

  // ---------------------------------------------------------------------
  // Virtual higher timeframe
  // ---------------------------------------------------------------------

  datatype HtfDom = BullDom | BearDom | NoDom
  datatype Drift = Up | Down | Flat
  datatype VolMode = Expand | Contract | Normal

  datatype HtfRead = HtfRead(dom: HtfDom, drift: Drift, volMode: VolMode, wickBias: WickBias)

  const NeutralHtf := HtfRead(NoDom, Flat, Normal, Mixed)

  /** Dominance from a leg flow: the net flow must exceed a quarter of the
      larger side's body sum, in either direction. */
  function DominanceOf(flow: LegFlow): (d: HtfDom)
    requires flow.bullBodySum >= 0.0 && flow.bearBodySum >= 0.0
    ensures d == BullDom <==> flow.NetFlow() > Max(flow.bullBodySum, flow.bearBodySum) * 0.25
    ensures d == BearDom <==> flow.NetFlow() < -Max(flow.bullBodySum, flow.bearBodySum) * 0.25
    ensures d == BullDom ==> flow.bullBodySum > flow.bearBodySum
    ensures d == BearDom ==> flow.bearBodySum > flow.bullBodySum
  {
    var m := Max(flow.bullBodySum, flow.bearBodySum);
    if flow.NetFlow() > m * 0.25 then BullDom
    else if flow.NetFlow() < -m * 0.25 then BearDom
    else NoDom
  }

  /** Percentage change of close across the window against a tolerance band;
      flat unless the first close is positive. */
  function DriftOf(firstClose: real, lastClose: real, tolerancePct: real): (d: Drift)
    ensures d != Flat ==> firstClose > 0.0
    ensures firstClose > 0.0 ==>
      (d == Up <==> (lastClose - firstClose) / firstClose * 100.0 > tolerancePct)
    ensures firstClose > 0.0 && tolerancePct >= 0.0 ==>
      (d == Down <==> (lastClose - firstClose) / firstClose * 100.0 < -tolerancePct)
  {
    if firstClose > 0.0 then
      var pct := (lastClose - firstClose) / firstClose * 100.0;
      if pct > tolerancePct then Up
      else if pct < -tolerancePct then Down
      else Flat
    else Flat
  }

  /** Second-half over first-half mean range: above 1.15 expanding, below
      0.85 contracting, otherwise (or with a non-positive first half, or
      fewer than four ranges) normal. */
  function VolModeOf(ranges: seq<real>): (v: VolMode)
    ensures |ranges| < 4 ==> v == Normal
    ensures |ranges| >= 4 && SafeMean(ranges[..|ranges| / 2]) <= 0.0 ==> v == Normal
    ensures |ranges| >= 4 && SafeMean(ranges[..|ranges| / 2]) > 0.0 ==>
      var ratio := SafeMean(ranges[|ranges| / 2..]) / SafeMean(ranges[..|ranges| / 2]);
      && (v == Expand <==> ratio > 1.15)
      && (v == Contract <==> ratio < 0.85)
    ensures v == Expand ==> SafeMean(ranges[|ranges| / 2..]) > SafeMean(ranges[..|ranges| / 2])
    ensures v == Contract ==> SafeMean(ranges[|ranges| / 2..]) < SafeMean(ranges[..|ranges| / 2])
  {
    if |ranges| >= 4 then
      var mid := |ranges| / 2;
      var r1 := SafeMean(ranges[..mid]);
      var r2 := SafeMean(ranges[mid..]);
      if r1 > 0.0 then
        var ratio := r2 / r1;
        RatioAgainstOne(r2, r1);
        if ratio > 1.15 then Expand
        else if ratio < 0.85 then Contract
        else Normal
      else Normal
    else Normal
  }

  /** The HTF read on the trailing `htfWindow` candles: dominance, drift,
      volatility mode and wick bias; neutral for fewer than four candles. */
  function ComputeHtfVirtual(candles: seq<Candle>, s: BehaviourSettings): (r: HtfRead)
    ensures var seg := Window(candles, s.htfWindow);
      && (|seg| < 4 ==> r == NeutralHtf)
      && (r.dom == BullDom <==>
            |seg| >= 4 && LegFlowOf(seg).NetFlow() > Max(LegFlowOf(seg).bullBodySum, LegFlowOf(seg).bearBodySum) * 0.25)
      && (r.dom == BearDom <==>
            |seg| >= 4 && LegFlowOf(seg).NetFlow() < -Max(LegFlowOf(seg).bullBodySum, LegFlowOf(seg).bearBodySum) * 0.25)
      && (r.drift != Flat ==>
            |seg| >= 4 && seg[0].close > 0.0
            && Abs((seg[|seg| - 1].close - seg[0].close) / seg[0].close * 100.0) > s.htfDriftTolerancePct)
      && (|seg| >= 4 ==>
            && r.drift == DriftOf(seg[0].close, seg[|seg| - 1].close, s.htfDriftTolerancePct)
            && r.volMode == VolModeOf(MapCandles(seg, Range))
            && r.wickBias == WickBiasOf(SafeMean(MapCandles(seg, UpperWick)), SafeMean(MapCandles(seg, LowerWick))))
  {
    var seg := Window(candles, s.htfWindow);
    if |seg| < 4 then NeutralHtf
    else
      var flow := LegFlowOf(seg);
      var dom := DominanceOf(flow);
      var drift := DriftOf(seg[0].close, seg[|seg| - 1].close, s.htfDriftTolerancePct);
      var volMode := VolModeOf(MapCandles(seg, Range));
      var avgUp := SafeMean(MapCandles(seg, UpperWick));
      var avgDown := SafeMean(MapCandles(seg, LowerWick));
      HtfRead(dom, drift, volMode, WickBiasOf(avgUp, avgDown))
  }

  // ---------------------------------------------------------------------
  // The feature record
  // ---------------------------------------------------------------------

  datatype FeatureRecord = FeatureRecord(
    // leg and flow
    bullBodySum: real, bearBodySum: real, bullCount: nat, bearCount: nat, netFlow: real,
    // body and range
    avgBody: real, avgRange: real, bodyTrend: real, rangeTrend: real,
    // wick behaviour
    avgUpWick: real, avgDownWick: real, wickBias: WickBias,
    // micro range
    microLow: real, microHigh: real, posInRange: real, lastPrice: real,
    // flush / extreme
    hasFlushDown: bool, hasFlushUp: bool, flushDepthDown: real, flushDepthUp: real,
    // chop
    chopScore: real,
    // virtual HTF
    htfDom: HtfDom, htfDrift: Drift, htfVolMode: VolMode, htfWickBias: WickBias)

  /** `compute_features`: nothing for an empty input, otherwise every feature
      computed once over the trailing `featureWindow` candles (the HTF read
      over its own shorter window of the whole input). */
  function ComputeFeatures(candles: seq<Candle>, s: BehaviourSettings): (r: Option<FeatureRecord>)
    ensures r.None? <==> candles == []
    ensures r.Some? ==> var f := r.value;
      && f.bullBodySum >= 0.0 && f.bearBodySum >= 0.0
      && f.netFlow == f.bullBodySum - f.bearBodySum
      && f.bullCount + f.bearCount <= |candles|
      && f.avgBody >= 0.0 && f.bodyTrend >= -1.0
      && 0.0 <= f.posInRange <= 1.0
      && f.flushDepthDown >= 0.0 && f.flushDepthUp >= 0.0
      && 0.0 <= f.chopScore <= 100.0
      && f.lastPrice == candles[|candles| - 1].close
      && f.wickBias == WickBiasOf(f.avgUpWick, f.avgDownWick)
  {
    if candles == [] then None
    else
      var segment := Window(candles, s.featureWindow);
      var basic := ComputeBasicStats(segment);
      var flow := LegFlowOf(segment);
      var micro := ComputeMicroRange(segment);
      var chop := ChopScoreOf(segment, basic.avgBody, s);
      var flush := DetectFlush(segment, basic.avgRange, s.flushLookback, s.flushMinDepthRatio);
      var htf := ComputeHtfVirtual(candles, s);
      Some(FeatureRecord(
        flow.bullBodySum, flow.bearBodySum, flow.bullCount, flow.bearCount, flow.NetFlow(),
        basic.avgBody, basic.avgRange, basic.bodyTrend, basic.rangeTrend,
        basic.avgUpWick, basic.avgDownWick, WickBiasOf(basic.avgUpWick, basic.avgDownWick),
        micro.low, micro.high, micro.posInRange, segment[|segment| - 1].close,
        flush.hasFlushDown, flush.hasFlushUp, flush.depthDown, flush.depthUp,
        chop,
        htf.dom, htf.drift, htf.volMode, htf.wickBias))
  }
}
