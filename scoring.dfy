/** Aggregation of the category results into one opportunity: scores summed
    per bias, a direction only under a strict 1.3x dominance, the momentum
    collapse score added as context, chop and counter-HTF dampening, and a
    clamp to [0,150]. */
module Scoring {
  import opened Common
  import opened Settings
  import opened Features
  import opened Categories

  // ---------------------------------------------------------------------
  // Direction
  // ---------------------------------------------------------------------

  /** Total score of the categories leaning `b`; the folding order is the
      dictionary's iteration order. */
  function BiasSum(cats: seq<CategoryResult>, b: Bias): (r: real)
    ensures NonNegativeScores(cats) ==> 0.0 <= r <= TotalScore(cats)
    decreases |cats|
  {
    if cats == [] then 0.0
    else
      var last := cats[|cats| - 1];
      assert NonNegativeScores(cats) ==> NonNegativeScores(cats[..|cats| - 1]);
      BiasSum(cats[..|cats| - 1], b) + (if last.bias == b then last.score else 0.0)
  }

  /** Sum of every score, whatever its bias. */
  function TotalScore(cats: seq<CategoryResult>): real
    decreases |cats|
  {
    if cats == [] then 0.0 else TotalScore(cats[..|cats| - 1]) + cats[|cats| - 1].score
  }

  predicate NonNegativeScores(cats: seq<CategoryResult>)
  {
    forall i :: 0 <= i < |cats| ==> cats[i].score >= 0.0
  }

  /** Both sums weak: no direction. Otherwise a side wins only with more
      than 1.3 times the other side's sum, long checked first. */
  function DirectionOf(longSum: real, shortSum: real): (d: Bias)
    ensures longSum < 1.0 && shortSum < 1.0 ==> d == NoBias
    ensures d == Long <==> !(longSum < 1.0 && shortSum < 1.0) && longSum > shortSum * 1.3
    ensures d == Short <==>
      !(longSum < 1.0 && shortSum < 1.0) && !(longSum > shortSum * 1.3) && shortSum > longSum * 1.3
  {
    if longSum < 1.0 && shortSum < 1.0 then NoBias
    else if longSum > shortSum * 1.3 then Long
    else if shortSum > longSum * 1.3 then Short
    else NoBias
  }

  datatype DirectionInfo = DirectionInfo(direction: Bias, biasLongScore: real, biasShortScore: real)

  /** The direction read from a sequence of category results. */
  function ChooseDirectionOf(cats: seq<CategoryResult>): (r: DirectionInfo)
    ensures r.biasLongScore == BiasSum(cats, Long) && r.biasShortScore == BiasSum(cats, Short)
    ensures r.direction == DirectionOf(r.biasLongScore, r.biasShortScore)
  {
    var longSum := BiasSum(cats, Long);
    var shortSum := BiasSum(cats, Short);
    DirectionInfo(DirectionOf(longSum, shortSum), longSum, shortSum)
  }

  /** `_choose_direction`: one pass accumulating the long and short sums,
      then the weak-signal and dominance tests. */
  method ChooseDirection(cats: seq<CategoryResult>) returns (info: DirectionInfo)
    ensures info == ChooseDirectionOf(cats)
  {
    var biasLongScore, biasShortScore := 0.0, 0.0;
    for i := 0 to |cats|
      invariant biasLongScore == BiasSum(cats[..i], Long)
      invariant biasShortScore == BiasSum(cats[..i], Short)
    {
      var res := cats[i];
      if res.bias == Long {
        biasLongScore := biasLongScore + res.score;
      } else if res.bias == Short {
        biasShortScore := biasShortScore + res.score;
      }
      assert cats[..i + 1][..i] == cats[..i];
    }
    assert cats[..|cats|] == cats;
    var direction: Bias;
    if biasLongScore < 1.0 && biasShortScore < 1.0 {
      return DirectionInfo(NoBias, biasLongScore, biasShortScore);
    }
    if biasLongScore > biasShortScore * 1.3 {
      direction := Long;
    } else if biasShortScore > biasLongScore * 1.3 {
      direction := Short;
    } else {
      direction := NoBias;
    }
    info := DirectionInfo(direction, biasLongScore, biasShortScore);
  }

  /** With non-negative sums the two dominance tests never both hold. */
  lemma DominanceExclusive(longSum: real, shortSum: real)
    requires longSum >= 0.0 && shortSum >= 0.0
    ensures !(longSum > shortSum * 1.3 && shortSum > longSum * 1.3)
  {
  }

  /** Every score lands in exactly one of the three per-bias sums. */
  lemma {:induction false} BiasSumsPartition(cats: seq<CategoryResult>)
    ensures BiasSum(cats, Long) + BiasSum(cats, Short) + BiasSum(cats, NoBias) == TotalScore(cats)
    decreases |cats|
  {
    if cats != [] {
      BiasSumsPartition(cats[..|cats| - 1]);
    }
  }

  lemma {:induction false} BiasSumAppend(a: seq<CategoryResult>, c: seq<CategoryResult>, b: Bias)
    ensures BiasSum(a + c, b) == BiasSum(a, b) + BiasSum(c, b)
    decreases |c|
  {
    if c == [] {
      assert a + c == a;
    } else {
      var ac := a + c;
      assert ac[..|ac| - 1] == a + c[..|c| - 1];
      BiasSumAppend(a, c[..|c| - 1], b);
    }
  }

  /** The sums do not depend on the order the categories are visited in:
      moving a block from the back to the front leaves them unchanged. */
  lemma BiasSumRotate(a: seq<CategoryResult>, c: seq<CategoryResult>, b: Bias)
    ensures BiasSum(a + c, b) == BiasSum(c + a, b)
  {
    BiasSumAppend(a, c, b);
    BiasSumAppend(c, a, b);
  }

  /** Categories without a bias contribute to neither side: if none has a
      bias there is no direction. */
  lemma {:induction false} UnbiasedSumsZero(cats: seq<CategoryResult>, b: Bias)
    requires b != NoBias
    requires forall i :: 0 <= i < |cats| ==> cats[i].bias == NoBias
    ensures BiasSum(cats, b) == 0.0
    decreases |cats|
  {
    if cats != [] {
      UnbiasedSumsZero(cats[..|cats| - 1], b);
    }
  }

  lemma AllUnbiasedNoDirection(cats: seq<CategoryResult>)
    requires forall i :: 0 <= i < |cats| ==> cats[i].bias == NoBias
    ensures ChooseDirectionOf(cats).direction == NoBias
  {
    UnbiasedSumsZero(cats, Long);
    UnbiasedSumsZero(cats, Short);
  }

  // ---------------------------------------------------------------------
  // Aggregate opportunity
  // ---------------------------------------------------------------------

  datatype Opportunity = Opportunity(
    score: real, direction: Bias, biasLongScore: real, biasShortScore: real, components: Categories)

  /** Chop dampening: x0.35 at or above the high threshold, x0.7 at or above
      the low one, otherwise none. */
  function ChopFactor(chop: real, s: BehaviourSettings): (k: real)
    ensures 0.35 <= k <= 1.0
    ensures chop >= s.chopHighThreshold ==> k == 0.35
    ensures s.chopLowThreshold <= chop < s.chopHighThreshold ==> k == 0.7
    ensures chop < s.chopLowThreshold && chop < s.chopHighThreshold ==> k == 1.0
  {
    if chop >= s.chopHighThreshold then 0.35
    else if chop >= s.chopLowThreshold then 0.7
    else 1.0
  }

  /** The HTF read opposes the direction with both its dominance and its
      drift. */
  predicate AgainstHtf(d: Bias, f: FeatureRecord)
  {
    (d == Long && f.htfDom == BearDom && f.htfDrift == Down)
    || (d == Short && f.htfDom == BullDom && f.htfDrift == Up)
  }

  function HtfFactor(d: Bias, f: FeatureRecord): (k: real)
    ensures k == 0.6 <==> AgainstHtf(d, f)
    ensures !AgainstHtf(d, f) ==> k == 1.0
  {
    if AgainstHtf(d, f) then 0.6 else 1.0
  }

  /** The winning side's sum plus half the momentum-collapse score, dampened
      and clamped to [0,150]. */
  function DampenedScore(winning: real, mcScore: real, d: Bias, f: FeatureRecord, s: BehaviourSettings): (v: real)
    ensures 0.0 <= v <= 150.0
  {
    Clamp((winning + 0.5 * mcScore) * ChopFactor(f.chopScore, s) * HtfFactor(d, f), 0.0, 150.0)
  }

  function AggregateOpportunity(f: FeatureRecord, cats: Categories, s: BehaviourSettings): (r: Opportunity)
    ensures 0.0 <= r.score <= 150.0
    ensures r.components == cats
    ensures r.biasLongScore == BiasSum(cats.AsSeq(), Long) && r.biasShortScore == BiasSum(cats.AsSeq(), Short)
    ensures r.direction == DirectionOf(r.biasLongScore, r.biasShortScore)
    ensures r.direction == NoBias ==> r.score == 0.0
    ensures r.direction == Long ==> r.score == DampenedScore(r.biasLongScore, cats.mc.score, Long, f, s)
    ensures r.direction == Short ==> r.score == DampenedScore(r.biasShortScore, cats.mc.score, Short, f, s)
  {
    var info := ChooseDirectionOf(cats.AsSeq());
    var winning := if info.direction == Long then info.biasLongScore else info.biasShortScore;
    var score := if info.direction == NoBias then 0.0 else DampenedScore(winning, cats.mc.score, info.direction, f, s);
    Opportunity(score, info.direction, info.biasLongScore, info.biasShortScore, cats)
  }

  /** A larger winning sum never gives a smaller final score. */
  lemma DampenedScoreMonotone(w1: real, w2: real, mcScore: real, d: Bias, f: FeatureRecord, s: BehaviourSettings)
    requires w1 <= w2
    ensures DampenedScore(w1, mcScore, d, f, s) <= DampenedScore(w2, mcScore, d, f, s)
  {
    var k := ChopFactor(f.chopScore, s) * HtfFactor(d, f);
    assert k > 0.0;
    var x1, x2 := w1 + 0.5 * mcScore, w2 + 0.5 * mcScore;
    assert x1 * ChopFactor(f.chopScore, s) * HtfFactor(d, f) == x1 * k;
    assert x2 * ChopFactor(f.chopScore, s) * HtfFactor(d, f) == x2 * k;
    assert x1 * k <= x2 * k;
    ClampMonotone(x1 * k, x2 * k, 0.0, 150.0);
  }

  /** With neither dampening in effect the score is the winning sum plus
      half the MC score, capped at 150. */
  lemma UndampenedScore(winning: real, mcScore: real, d: Bias, f: FeatureRecord, s: BehaviourSettings)
    requires f.chopScore < s.chopLowThreshold && f.chopScore < s.chopHighThreshold && !AgainstHtf(d, f)
    requires winning >= 0.0 && mcScore >= 0.0
    ensures DampenedScore(winning, mcScore, d, f, s) == Min(winning + 0.5 * mcScore, 150.0)
  {
  }

  /** On the detectors' own output both sums are non-negative, so at most
      one side can dominate. */
  lemma CategorySumsNonNegative(f: FeatureRecord, s: BehaviourSettings)
    ensures var cats := EvalAllCategories(f, s).AsSeq();
      BiasSum(cats, Long) >= 0.0 && BiasSum(cats, Short) >= 0.0
  {
  }
}
