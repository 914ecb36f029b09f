/**
 * The competency table of the evaluation form, the weighted percentage
 * computed from the per-criterion ratings, and the fit label derived from it
 * (app/components/CandidateEvaluationForm.tsx, METRICS, weightedScorePercentage
 * and getImpression).
 *
 * Weights are integer percentages (10 stands for 0.10), so the percentage
 * (sum of rating * weight / 5 * 100) is the exact integer sum(rating * w) / 5.
 */
module Scoring {

  /** One scored competency; `weight` is a percentage of the total, `title` the displayed label. */
  datatype Metric = Metric(id: string, title: string, weight: nat, hint: string)

  /** The six competencies, in display order. */
  const Metrics: seq<Metric> := [
    Metric("language", "Language", 10, "Clarity & Fluency"),
    Metric("communication", "Communication Skill", 25, "Expression & Confidence"),
    Metric("business", "Business Setup Knowledge", 20, "Regulations & Market"),
    Metric("attitude", "Attitude", 10, "Positivity & Adaptability"),
    Metric("professionalism", "Professionalism", 15, "Behavior & Respect"),
    Metric("logic", "Logical Thinking", 20, "Reasoning & Strategy")
  ]

  /** The highest rating a criterion can receive; ratings are divided by it. */
  const RatingScale := 5

  /** The number of criteria `getImpression` demands before it gives a fit label. */
  const RequiredScores := 6

  /** The criterion ids, the only keys the form ever writes into its score map. */
  function MetricIds(): set<string> {
    Ids(Metrics)
  }

  function Ids(ms: seq<Metric>): set<string> {
    if ms == [] then {} else {ms[0].id} + Ids(ms[1..])
  }

  /** `scores[id] || 0`: a criterion not yet rated counts as 0. */
  function RatingOf(scores: map<string, int>, id: string): (r: int)
    ensures id in scores ==> r == scores[id]
    ensures id !in scores ==> r == 0
  {
    if id in scores then scores[id] else 0
  }

  function SumWeights(ms: seq<Metric>): nat {
    if ms == [] then 0 else ms[0].weight + SumWeights(ms[1..])
  }

  /** The `reduce` of line 41 before the final division: sum of rating * weight. */
  function WeightedSum(scores: map<string, int>, ms: seq<Metric>): (w: int)
    ensures (forall i :: 0 <= i < |ms| ==> ms[i].id !in scores) ==> w == 0
    ensures RatingsWithin(scores, ms, 0, RatingScale) ==> w >= 0
  {
    if ms == [] then 0
    else RatingOf(scores, ms[0].id) * ms[0].weight + WeightedSum(scores, ms[1..])
  }

  /** Every rating of a criterion in `ms` lies in [lo, hi]. */
  predicate RatingsWithin(scores: map<string, int>, ms: seq<Metric>, lo: int, hi: int) {
    forall i :: 0 <= i < |ms| ==> lo <= RatingOf(scores, ms[i].id) <= hi
  }

  predicate WeightsMultipleOfFive(ms: seq<Metric>) {
    forall i :: 0 <= i < |ms| ==> ms[i].weight % 5 == 0
  }

  /** The weighted score percentage; the division by the rating scale is exact. */
  function Percentage(scores: map<string, int>): (p: int)
    ensures RatingScale * p == WeightedSum(scores, Metrics)
  {
    MetricWeights();
    WeightedSumDivisible(scores, Metrics);
    WeightedSum(scores, Metrics) / RatingScale
  }

  lemma MetricCount()
    ensures |Metrics| == RequiredScores
  {
  }

  /** The weights sum to 100 and each is a multiple of 5. */
  lemma MetricWeights()
    ensures |Metrics| == RequiredScores
    ensures SumWeights(Metrics) == 100
    ensures WeightsMultipleOfFive(Metrics)
  {
    var ws := [10, 25, 20, 10, 15, 20];
    assert forall i :: 0 <= i < |Metrics| ==> Metrics[i].weight == ws[i];
    assert SumWeights(Metrics[5..]) == 20;
    assert SumWeights(Metrics[4..]) == 35;
    assert SumWeights(Metrics[3..]) == 45;
    assert SumWeights(Metrics[2..]) == 65;
    assert SumWeights(Metrics[1..]) == 90;
  }

  /** The six criterion ids are distinct. */
  lemma MetricIdsDistinct()
    ensures MetricIds() == {"language", "communication", "business", "attitude", "professionalism", "logic"}
    ensures |MetricIds()| == |Metrics|
  {
  }

  /** The id of the k-th criterion is one of the criterion ids. */
  lemma MetricIdIn(k: nat)
    requires k < |Metrics|
    ensures Metrics[k].id in MetricIds()
  {
  }

  /** sum(rating * w) is a multiple of 5 when every w is. */
  lemma {:induction false} WeightedSumDivisible(scores: map<string, int>, ms: seq<Metric>)
    requires WeightsMultipleOfFive(ms)
    ensures WeightedSum(scores, ms) == 5 * (WeightedSum(scores, ms) / 5)
  {
    if ms != [] {
      assert WeightsMultipleOfFive(ms[1..]) by {
        forall i | 0 <= i < |ms| - 1 ensures ms[1..][i].weight % 5 == 0 {
          assert ms[1..][i] == ms[i + 1];
        }
      }
      WeightedSumDivisible(scores, ms[1..]);
      var r, w := RatingOf(scores, ms[0].id), ms[0].weight;
      var k, q := w / 5, WeightedSum(scores, ms[1..]) / 5;
      assert w == 5 * k;
      MulAssociates(r, 5, k);
      assert WeightedSum(scores, ms) == 5 * (r * k) + 5 * q;
    }
  }

  lemma {:induction false} WeightedSumBounds(scores: map<string, int>, ms: seq<Metric>, lo: int, hi: int)
    requires RatingsWithin(scores, ms, lo, hi)
    ensures lo * SumWeights(ms) <= WeightedSum(scores, ms) <= hi * SumWeights(ms)
  {
    if ms != [] {
      assert RatingsWithin(scores, ms[1..], lo, hi) by {
        forall i | 0 <= i < |ms| - 1 ensures lo <= RatingOf(scores, ms[1..][i].id) <= hi {
          assert ms[1..][i] == ms[i + 1];
        }
      }
      WeightedSumBounds(scores, ms[1..], lo, hi);
      var r, w := RatingOf(scores, ms[0].id), ms[0].weight;
      MulMonotone(lo, r, w);
      MulMonotone(r, hi, w);
      MulDistributes(lo, w, SumWeights(ms[1..]));
      MulDistributes(hi, w, SumWeights(ms[1..]));
    }
  }

  lemma MulAssociates(a: int, b: int, c: int)
    ensures a * (b * c) == b * (a * c)
  {
  }

  lemma MulDistributes(a: int, b: int, c: int)
    ensures a * (b + c) == a * b + a * c
  {
  }

  lemma MulMonotone(a: int, b: int, w: nat)
    requires a <= b
    ensures a * w <= b * w
  {
  }

  /** With every rating in [0, 5], the percentage lies in [0, 100]. */
  lemma PercentageRange(scores: map<string, int>)
    requires RatingsWithin(scores, Metrics, 0, RatingScale)
    ensures 0 <= Percentage(scores) <= 100
  {
    MetricWeights();
    WeightedSumBounds(scores, Metrics, 0, RatingScale);
  }

  /** When every criterion has the same rating `c`, the percentage is 20 * c. */
  lemma UniformRatings(scores: map<string, int>, c: int)
    requires RatingsWithin(scores, Metrics, c, c)
    ensures Percentage(scores) == 20 * c
  {
    MetricWeights();
    WeightedSumBounds(scores, Metrics, c, c);
  }

  /** No rating yet: 0%. Every criterion at 5: 100%. Every criterion at 3: 60%. */
  lemma PercentageExamples(scores: map<string, int>)
    ensures scores == map[] ==> Percentage(scores) == 0
    ensures RatingsWithin(scores, Metrics, 5, 5) ==> Percentage(scores) == 100
    ensures RatingsWithin(scores, Metrics, 3, 3) ==> Percentage(scores) == 60
  {
    if scores == map[] {
      UniformRatings(scores, 0);
    }
    if RatingsWithin(scores, Metrics, 5, 5) {
      UniformRatings(scores, 5);
    }
    if RatingsWithin(scores, Metrics, 3, 3) {
      UniformRatings(scores, 3);
    }
  }

  /** Ratings that are pointwise no lower give a weighted sum that is no lower. */
  lemma {:induction false} WeightedSumMonotone(s: map<string, int>, t: map<string, int>, ms: seq<Metric>)
    requires forall i :: 0 <= i < |ms| ==> RatingOf(s, ms[i].id) <= RatingOf(t, ms[i].id)
    ensures WeightedSum(s, ms) <= WeightedSum(t, ms)
  {
    if ms != [] {
      forall i | 0 <= i < |ms| - 1 ensures RatingOf(s, ms[1..][i].id) <= RatingOf(t, ms[1..][i].id) {
        assert ms[1..][i] == ms[i + 1];
      }
      WeightedSumMonotone(s, t, ms[1..]);
      MulMonotone(RatingOf(s, ms[0].id), RatingOf(t, ms[0].id), ms[0].weight);
    }
  }

  /** The fit labels, in the order of how well they rate a candidate. */
  datatype Impression = PendingAllScores | LowFit | AverageFit | GoodFit | StrongFit {

    /** The text the form shows and sends as `performanceImpression`. */
    function Label(): string {
      match this
      case PendingAllScores => "Pending All Scores"
      case LowFit => "Low Fit"
      case AverageFit => "Average Fit"
      case GoodFit => "Good Fit"
      case StrongFit => "Strong Fit"
    }

    /** Position in the order above; "Pending All Scores" is the lowest. */
    function Rank(): nat {
      match this
      case PendingAllScores => 0
      case LowFit => 1
      case AverageFit => 2
      case GoodFit => 3
      case StrongFit => 4
    }
  }

  /** `getImpression`: `scoredCount` is the number of keys in the score map. */
  function GetImpression(scoredCount: nat, p: int): (i: Impression)
    ensures i == PendingAllScores <==> scoredCount < RequiredScores
  {
    if scoredCount < RequiredScores then PendingAllScores
    else if p >= 85 then StrongFit
    else if p >= 70 then GoodFit
    else if p >= 55 then AverageFit
    else LowFit
  }

  /** The label the form currently shows for a score map. */
  function ImpressionOf(scores: map<string, int>): (i: Impression)
    ensures i == PendingAllScores <==> |scores| < RequiredScores
  {
    GetImpression(|scores|, Percentage(scores))
  }

  /** Distinct labels have distinct texts, so the sent text identifies the label. */
  lemma LabelInjective(a: Impression, b: Impression)
    ensures a.Label() == b.Label() ==> a == b
  {
  }

  /** Fewer than six scored criteria give "Pending All Scores" whatever the percentage. */
  lemma PendingIffIncomplete(scoredCount: nat, p: int)
    ensures GetImpression(scoredCount, p) == PendingAllScores <==> scoredCount < RequiredScores
  {
  }

  /** With six criteria scored, each label is exactly one band, lower bound inclusive. */
  lemma Bands(scoredCount: nat, p: int)
    requires scoredCount >= RequiredScores
    ensures GetImpression(scoredCount, p) == StrongFit <==> 85 <= p
    ensures GetImpression(scoredCount, p) == GoodFit <==> 70 <= p < 85
    ensures GetImpression(scoredCount, p) == AverageFit <==> 55 <= p < 70
    ensures GetImpression(scoredCount, p) == LowFit <==> p < 55
  {
  }

  /** More scored criteria or a higher percentage never give a lower label. */
  lemma ImpressionMonotone(n: nat, p: int, n': nat, p': int)
    requires n <= n' && p <= p'
    ensures GetImpression(n, p).Rank() <= GetImpression(n', p').Rank()
  {
  }

  /**
   * Rating criterion `id` with a value no lower than its current one never
   * lowers the percentage nor the label.
   */
  lemma RaisingARating(scores: map<string, int>, id: string, v: int)
    requires RatingOf(scores, id) <= v
    ensures Percentage(scores) <= Percentage(scores[id := v])
    ensures ImpressionOf(scores).Rank() <= ImpressionOf(scores[id := v]).Rank()
  {
    var t := scores[id := v];
    forall i | 0 <= i < |Metrics| ensures RatingOf(scores, Metrics[i].id) <= RatingOf(t, Metrics[i].id) {
    }
    WeightedSumMonotone(scores, t, Metrics);
    assert |scores| <= |t|;
    ImpressionMonotone(|scores|, Percentage(scores), |t|, Percentage(t));
  }

  /** A score map keyed only by criterion ids has at most six keys. */
  lemma {:induction false} ScoredCountBounded(scores: map<string, int>)
    requires scores.Keys <= MetricIds()
    ensures |scores| <= RequiredScores
    ensures |scores| == RequiredScores <==> scores.Keys == MetricIds()
  {
    MetricIdsDistinct();
    var rest := MetricIds() - scores.Keys;
    assert MetricIds() == scores.Keys + rest;
    assert |MetricIds()| == |scores.Keys| + |rest|;
    if |scores| == RequiredScores {
      assert rest == {};
    }
  }

  /** Every criterion has a rating. */
  predicate AllCriteriaScored(scores: map<string, int>) {
    scores.Keys == MetricIds()
  }

  /** A score map keyed only by criterion ids with six keys has every criterion scored. */
  lemma AllScored(scores: map<string, int>)
    requires scores.Keys <= MetricIds() && |scores| >= |Metrics|
    ensures AllCriteriaScored(scores)
  {
    MetricWeights();
    ScoredCountBounded(scores);
  }

  /** A score map holding a rating for every row of the table has six keys. */
  lemma EveryRowScored(scores: map<string, int>)
    requires scores.Keys <= MetricIds()
    requires forall i :: 0 <= i < |Metrics| ==> Metrics[i].id in scores
    ensures |scores| == RequiredScores
  {
    MetricIdsDistinct();
    assert MetricIds() <= scores.Keys by {
      assert Metrics[0].id in scores && Metrics[1].id in scores && Metrics[2].id in scores;
      assert Metrics[3].id in scores && Metrics[4].id in scores && Metrics[5].id in scores;
    }
    ScoredCountBounded(scores);
  }

  /**
   * Rating criterion `id` changes that key only; the key count grows by at
   * most one and stays within the six criteria.
   */
  lemma RatingUpdate(scores: map<string, int>, id: string, v: int)
    requires scores.Keys <= MetricIds() && id in MetricIds()
    ensures scores[id := v][id] == v
    ensures forall k :: k != id ==> RatingOf(scores[id := v], k) == RatingOf(scores, k)
    ensures |scores| <= |scores[id := v]| <= |scores| + 1
    ensures |scores[id := v]| <= RequiredScores
  {
    ScoredCountBounded(scores[id := v]);
  }
}
