/** Marketing-campaign arithmetic in backend/server.py: how a campaign's
    posts are split over content pillars (`calculate_pillar_distribution`)
    and how a generated campaign is scored (`calculate_campaign_quality_score`). */
module Campaigns {
  import opened Wrappers
  import Lists

  /** A pillar and its weight in percent, in the order the goal lists them. */
  datatype Weight = Weight(pillar: string, percent: nat)

  const SALES_WEIGHTS: seq<Weight> :=
    [Weight("sales", 40), Weight("education", 25), Weight("engagement", 20), Weight("authority", 10), Weight("personal", 5)]
  const GROWTH_WEIGHTS: seq<Weight> :=
    [Weight("engagement", 35), Weight("education", 25), Weight("personal", 20), Weight("authority", 15), Weight("sales", 5)]
  const TRUST_WEIGHTS: seq<Weight> :=
    [Weight("authority", 35), Weight("education", 30), Weight("personal", 20), Weight("engagement", 10), Weight("sales", 5)]
  const ENGAGEMENT_WEIGHTS: seq<Weight> :=
    [Weight("engagement", 40), Weight("personal", 25), Weight("education", 20), Weight("authority", 10), Weight("sales", 5)]

  /** The pillar weights of each campaign goal. */
  const CAMPAIGN_GOALS: map<string, seq<Weight>> := map[
    "sales" := SALES_WEIGHTS, "growth" := GROWTH_WEIGHTS,
    "trust" := TRUST_WEIGHTS, "engagement" := ENGAGEMENT_WEIGHTS
  ]

  /** Posts per campaign, by duration in days. */
  const CAMPAIGN_DURATIONS: map<int, nat> := map[7 := 7, 14 := 14, 30 := 30]

  /** Python's `round(n / d)`: the nearest integer, ties to the even one. */
  function RoundHalfEven(n: int, d: int): (r: int)
    requires d > 0
    ensures -d <= 2 * (r * d - n) <= d
    ensures 2 * (r * d - n) == d || 2 * (r * d - n) == -d ==> r % 2 == 0
  {
    var q := n / d;
    var rem := n % d;
    if 2 * rem < d then q
    else if 2 * rem > d then q + 1
    else if q % 2 == 0 then q else q + 1
  }

  /** A pillar's rounded share of `total` posts, before any cut. */
  function RoundedShare(total: nat, w: Weight): nat {
    RoundHalfEven(total * w.percent, 100)
  }

  /** The rounded share of every pillar, in order. */
  function RoundedShares(weights: seq<Weight>, total: nat): (s: seq<nat>)
    ensures |s| == |weights|
    ensures forall k | 0 <= k < |s| :: s[k] == RoundedShare(total, weights[k])
  {
    seq(|weights|, k requires 0 <= k < |weights| => RoundedShare(total, weights[k]))
  }

  /** One pillar's share of the posts. */
  datatype Share = Share(pillar: string, count: nat)

  function Total(shares: seq<Share>): nat {
    if |shares| == 0 then 0 else shares[0].count + Total(shares[1..])
  }

  /** The loop of `calculate_pillar_distribution` from some pillar on, with
      `remaining` posts still to hand out: every pillar but the last gets its
      rounded share (`rounded`), cut down to what remains; the last gets the
      rest. */
  function Distribute(weights: seq<Weight>, rounded: seq<nat>, remaining: nat): (r: seq<Share>)
    requires |rounded| == |weights|
    ensures |r| == |weights|
    ensures forall k | 0 <= k < |r| :: r[k].pillar == weights[k].pillar
    ensures |weights| >= 1 ==> Total(r) == remaining
  {
    if |weights| == 0 then []
    else if |weights| == 1 then [Share(weights[0].pillar, remaining)]
    else
      var c := Min(rounded[0], remaining) as nat;
      [Share(weights[0].pillar, c)] + Distribute(weights[1..], rounded[1..], remaining - c)
  }

  /** `split` is the split of `total` posts over `weights` that the loop of
      `calculate_pillar_distribution` produces when the pillars' rounded
      shares are `rounded`: the pillars in order, every pillar but the last
      given its rounded share cut to the posts still left, and the counts
      summing to `total`. */
  predicate IsSplitWith(split: seq<Share>, weights: seq<Weight>, rounded: seq<nat>, total: nat)
    requires |rounded| == |weights|
  {
    && |split| == |weights|
    && (forall k | 0 <= k < |split| :: split[k].pillar == weights[k].pillar)
    && Total(split) == total
    && (forall k | 0 <= k < |split| - 1 :: split[k].count == Min(rounded[k], total - Total(split[..k])))
  }

  /** The split with the source's rounded shares, `round(total * weight / 100)`. */
  predicate IsSplit(split: seq<Share>, weights: seq<Weight>, total: nat) {
    IsSplitWith(split, weights, RoundedShares(weights, total), total)
  }

  /** `calculate_pillar_distribution(goal, duration)`; `None` where the source
      raises a KeyError for an unknown goal or duration. */
  function CalculatePillarDistribution(goal: string, duration: int): (r: Option<seq<Share>>)
    ensures r.Some? <==> goal in CAMPAIGN_GOALS && duration in CAMPAIGN_DURATIONS
    ensures r.Some? ==> IsSplit(r.value, CAMPAIGN_GOALS[goal], CAMPAIGN_DURATIONS[duration])
  {
    if goal !in CAMPAIGN_GOALS || duration !in CAMPAIGN_DURATIONS then None
    else
      var total := CAMPAIGN_DURATIONS[duration];
      var weights := CAMPAIGN_GOALS[goal];
      assert |weights| == 5;
      DistributeIsSplit(weights, total);
      Some(Distribute(weights, RoundedShares(weights, total), total))
  }

  lemma DistributeIsSplit(weights: seq<Weight>, total: nat)
    requires |weights| >= 1
    ensures IsSplit(Distribute(weights, RoundedShares(weights, total), total), weights, total)
  {
    DistributeIsSplitWith(weights, RoundedShares(weights, total), total);
  }

  lemma DistributeIsSplitWith(weights: seq<Weight>, rounded: seq<nat>, total: nat)
    requires |rounded| == |weights| >= 1
    ensures IsSplitWith(Distribute(weights, rounded, total), weights, rounded, total)
  {
    DistributeCounts(weights, rounded, total);
  }

  /** Every pillar but the last gets exactly its rounded share, cut down to
      what the pillars before it left over. */
  lemma DistributeCounts(weights: seq<Weight>, rounded: seq<nat>, remaining: nat)
    requires |rounded| == |weights|
    ensures var r := Distribute(weights, rounded, remaining);
      forall k | 0 <= k < |r| - 1 :: r[k].count == Min(rounded[k], remaining - Total(r[..k]))
  {
    forall k | 0 <= k < |weights| - 1 {
      DistributeCountAt(weights, rounded, remaining, k);
    }
  }

  lemma {:induction false} DistributeCountAt(weights: seq<Weight>, rounded: seq<nat>, remaining: nat, k: nat)
    requires |rounded| == |weights| && k < |weights| - 1
    ensures var r := Distribute(weights, rounded, remaining);
      r[k].count == Min(rounded[k], remaining - Total(r[..k]))
  {
    if k > 0 {
      var c := Min(rounded[0], remaining) as nat;
      DistributeCountAt(weights[1..], rounded[1..], remaining - c, k - 1);
      DistributeCountShift(weights, rounded, remaining, k);
    } else {
      DistributeStep(weights, rounded, remaining);
    }
  }

  /** The count at `k > 0` is the tail's count at `k - 1`, and the posts handed
      out before it are the first pillar's plus the tail's before `k - 1`. */
  lemma DistributeCountShift(weights: seq<Weight>, rounded: seq<nat>, remaining: nat, k: nat)
    requires |rounded| == |weights| && 0 < k < |weights| - 1
    ensures var r := Distribute(weights, rounded, remaining);
      var c := Min(rounded[0], remaining) as nat;
      var rest := Distribute(weights[1..], rounded[1..], remaining - c);
      && r[k] == rest[k - 1] && rounded[k] == rounded[1..][k - 1]
      && Total(r[..k]) == c + Total(rest[..k - 1])
  {
    var c := Min(rounded[0], remaining) as nat;
    var rest := Distribute(weights[1..], rounded[1..], remaining - c);
    DistributeStep(weights, rounded, remaining);
    TotalConsPrefix(Share(weights[0].pillar, c), rest, k);
  }

  /** One turn of the loop. */
  lemma DistributeStep(weights: seq<Weight>, rounded: seq<nat>, remaining: nat)
    requires |rounded| == |weights| >= 2
    ensures Distribute(weights, rounded, remaining) ==
      [Share(weights[0].pillar, Min(rounded[0], remaining) as nat)]
      + Distribute(weights[1..], rounded[1..], remaining - Min(rounded[0], remaining) as nat)
  {
  }

  lemma TotalConsPrefix(h: Share, t: seq<Share>, k: nat)
    requires 0 < k <= |t| + 1
    ensures Total(([h] + t)[..k]) == h.count + Total(t[..k - 1])
  {
    assert ([h] + t)[..k][1..] == t[..k - 1];
  }

  /** With nothing left to hand out, every pillar gets nothing. */
  lemma {:induction false} DistributeNothing(weights: seq<Weight>, rounded: seq<nat>)
    requires |rounded| == |weights|
    ensures forall k | 0 <= k < |weights| :: Distribute(weights, rounded, 0)[k].count == 0
  {
    if |weights| >= 2 {
      DistributeStep(weights, rounded, 0);
      DistributeNothing(weights[1..], rounded[1..]);
      var r := Distribute(weights, rounded, 0);
      assert forall k | 1 <= k < |weights| :: r[k] == Distribute(weights[1..], rounded[1..], 0)[k - 1];
    }
  }

  /** Once a pillar is cut below its rounded share, the posts have run out:
      every later pillar, the last included, gets none. */
  lemma {:induction false} CutPillarEndsTheSplit(weights: seq<Weight>, rounded: seq<nat>, remaining: nat, k: nat)
    requires |rounded| == |weights| && k < |weights| - 1
    requires Distribute(weights, rounded, remaining)[k].count < rounded[k]
    ensures forall j | k < j < |weights| :: Distribute(weights, rounded, remaining)[j].count == 0
  {
    var r := Distribute(weights, rounded, remaining);
    var c := Min(rounded[0], remaining) as nat;
    var rest := Distribute(weights[1..], rounded[1..], remaining - c);
    DistributeStep(weights, rounded, remaining);
    if k == 0 {
      assert r[0].count == c && remaining - c == 0;
      DistributeNothing(weights[1..], rounded[1..]);
      forall j | 0 < j < |weights|
        ensures r[j].count == 0
      {
        assert r[j] == rest[j - 1];
      }
    } else {
      assert r[k] == rest[k - 1] && rounded[k] == rounded[1..][k - 1];
      CutPillarEndsTheSplit(weights[1..], rounded[1..], remaining - c, k - 1);
      forall j | k < j < |weights|
        ensures r[j].count == 0
      {
        assert r[j] == rest[j - 1];
      }
    }
  }

  /** The same for a whole campaign: a pillar that gets less than its
      rounded share is followed only by empty pillars. */
  lemma CutPillarLeavesTheRestEmpty(goal: string, duration: int, k: nat)
    requires goal in CAMPAIGN_GOALS && duration in CAMPAIGN_DURATIONS
    requires k < |CAMPAIGN_GOALS[goal]| - 1
    requires CalculatePillarDistribution(goal, duration).value[k].count
      < RoundedShare(CAMPAIGN_DURATIONS[duration], CAMPAIGN_GOALS[goal][k])
    ensures forall j | k < j < |CAMPAIGN_GOALS[goal]| :: CalculatePillarDistribution(goal, duration).value[j].count == 0
  {
    var weights := CAMPAIGN_GOALS[goal];
    var total := CAMPAIGN_DURATIONS[duration];
    CutPillarEndsTheSplit(weights, RoundedShares(weights, total), total, k);
  }

  /** Ties round to even: a 30-day growth campaign gives engagement 10 (from
      10.5) and authority 4 (from 4.5), and sales takes the remaining 2. */
  lemma GrowthMonthSplit()
    ensures CalculatePillarDistribution("growth", 30) == Some([
      Share("engagement", 10), Share("education", 8), Share("personal", 6),
      Share("authority", 4), Share("sales", 2)])
  {
    var w := GROWTH_WEIGHTS;
    assert CAMPAIGN_GOALS["growth"] == w && CAMPAIGN_DURATIONS[30] == 30;
    assert RoundHalfEven(30 * 35, 100) == 10 && RoundHalfEven(30 * 25, 100) == 8 && RoundHalfEven(30 * 20, 100) == 6;
    assert RoundHalfEven(30 * 15, 100) == 4 && RoundHalfEven(30 * 5, 100) == 2;
    var rounded := RoundedShares(w, 30);
    assert rounded == [10, 8, 6, 4, 2];
    GrowthMonthShares();
  }

  /** The 30-day growth split, pillar by pillar. */
  lemma GrowthMonthShares()
    ensures Distribute(GROWTH_WEIGHTS, [10, 8, 6, 4, 2], 30) ==
      [Share("engagement", 10), Share("education", 8), Share("personal", 6), Share("authority", 4), Share("sales", 2)]
  {
    GrowthFrom1();
    assert GROWTH_WEIGHTS[1..] == [Weight("education", 25), Weight("personal", 20), Weight("authority", 15), Weight("sales", 5)];
  }

  lemma GrowthFrom1()
    ensures Distribute([Weight("education", 25), Weight("personal", 20), Weight("authority", 15), Weight("sales", 5)], [8, 6, 4, 2], 20) ==
      [Share("education", 8), Share("personal", 6), Share("authority", 4), Share("sales", 2)]
  {
    GrowthFrom2();
    assert [Weight("education", 25), Weight("personal", 20), Weight("authority", 15), Weight("sales", 5)][1..] ==
      [Weight("personal", 20), Weight("authority", 15), Weight("sales", 5)];
  }

  lemma GrowthFrom2()
    ensures Distribute([Weight("personal", 20), Weight("authority", 15), Weight("sales", 5)], [6, 4, 2], 12) ==
      [Share("personal", 6), Share("authority", 4), Share("sales", 2)]
  {
    assert [Weight("personal", 20), Weight("authority", 15), Weight("sales", 5)][1..] == [Weight("authority", 15), Weight("sales", 5)];
    assert [Weight("authority", 15), Weight("sales", 5)][1..] == [Weight("sales", 5)];
  }

  /** When the rounded shares overshoot, the later pillars are cut: a
      7-day sales campaign leaves nothing for "personal". */
  lemma SalesWeekSplit()
    ensures CalculatePillarDistribution("sales", 7) == Some([
      Share("sales", 3), Share("education", 2), Share("engagement", 1),
      Share("authority", 1), Share("personal", 0)])
  {
    var w := SALES_WEIGHTS;
    assert CAMPAIGN_GOALS["sales"] == w && CAMPAIGN_DURATIONS[7] == 7;
    assert RoundHalfEven(7 * 40, 100) == 3 && RoundHalfEven(7 * 25, 100) == 2 && RoundHalfEven(7 * 20, 100) == 1;
    assert RoundHalfEven(7 * 10, 100) == 1 && RoundHalfEven(7 * 5, 100) == 0;
    var rounded := RoundedShares(w, 7);
    assert rounded == [3, 2, 1, 1, 0];
    SalesWeekShares();
  }

  /** The 7-day sales split, pillar by pillar. */
  lemma SalesWeekShares()
    ensures Distribute(SALES_WEIGHTS, [3, 2, 1, 1, 0], 7) ==
      [Share("sales", 3), Share("education", 2), Share("engagement", 1), Share("authority", 1), Share("personal", 0)]
  {
    SalesFrom1();
    assert SALES_WEIGHTS[1..] == [Weight("education", 25), Weight("engagement", 20), Weight("authority", 10), Weight("personal", 5)];
  }

  lemma SalesFrom1()
    ensures Distribute([Weight("education", 25), Weight("engagement", 20), Weight("authority", 10), Weight("personal", 5)], [2, 1, 1, 0], 4) ==
      [Share("education", 2), Share("engagement", 1), Share("authority", 1), Share("personal", 0)]
  {
    SalesFrom2();
    assert [Weight("education", 25), Weight("engagement", 20), Weight("authority", 10), Weight("personal", 5)][1..] ==
      [Weight("engagement", 20), Weight("authority", 10), Weight("personal", 5)];
  }

  lemma SalesFrom2()
    ensures Distribute([Weight("engagement", 20), Weight("authority", 10), Weight("personal", 5)], [1, 1, 0], 2) ==
      [Share("engagement", 1), Share("authority", 1), Share("personal", 0)]
  {
    assert [Weight("engagement", 20), Weight("authority", 10), Weight("personal", 5)][1..] == [Weight("authority", 10), Weight("personal", 5)];
    assert [Weight("authority", 10), Weight("personal", 5)][1..] == [Weight("personal", 5)];
  }

  /** The fields of a generated post the scorer reads. */
  datatype Post = Post(
    pillar: Option<string>,        // absent reads as "engagement"
    hasCta: bool,
    tone: Option<string>,          // absent reads as ""
    platform: Option<string>,      // absent reads as ""
    platformOptimized: bool)

  datatype Breakdown = Breakdown(
    pillarBalance: int,
    ctaQuality: int,
    contentVariety: int,
    platformOptimization: int)

  datatype QualityReport = QualityReport(
    score: int,
    breakdown: Option<Breakdown>,   // None: the empty breakdown of an empty campaign
    tips: seq<string>,
    grade: Option<string>)          // None: no grade key at all

  const TIP_NO_POSTS: string := "Generate campaign posts first"
  const TIP_PILLARS: string := "Add more content pillar variety for better balance"
  const TIP_CTA: string := "Add more calls-to-action to drive conversions"
  const TIP_TONES: string := "Use more diverse tones for engaging content"
  const TIP_PLATFORMS: string := "Optimize more posts for specific platforms"

  function DistinctPillars(posts: seq<Post>): nat {
    |set k | 0 <= k < |posts| :: posts[k].pillar.GetOr("engagement")|
  }

  function DistinctTones(posts: seq<Post>): nat {
    |set k | 0 <= k < |posts| :: posts[k].tone.GetOr("")|
  }

  function DistinctPlatforms(posts: seq<Post>): nat {
    |set k | 0 <= k < |posts| :: posts[k].platform.GetOr("")|
  }

  function CtaCount(posts: seq<Post>): nat {
    |Lists.Filter(posts, (p: Post) => p.hasCta)|
  }

  function OptimizedCount(posts: seq<Post>): nat {
    |Lists.Filter(posts, (p: Post) => p.platformOptimized)|
  }

  function Grade(score: int): string {
    if score >= 85 then "A" else if score >= 70 then "B" else if score >= 55 then "C" else "D"
  }

  /** `min(25, int(ratio * scale))` for `count` of `n` posts, with the
      ratio taken exactly. */
  function RatioPoints(count: nat, n: nat, scale: nat): (r: int)
    requires 0 < n && count <= n
    ensures 0 <= r <= 25
    ensures count == n ==> r == Min(25, scale)
    // the full 25 exactly when the ratio reaches 25 / scale; below that,
    // the whole part of ratio * scale
    ensures r == 25 <==> 25 * n <= count * scale
    ensures r < 25 ==> r * n <= count * scale < (r + 1) * n
  {
    var x := count * scale;
    CappedQuotient(x, n);
    if count == n then DivCancel(n, scale); Min(25, x / n)
    else Min(25, x / n)
  }

  /** `min(25, x // n)` reaches 25 exactly when `x` reaches `25 * n`, and
      below that brackets `x`. */
  lemma CappedQuotient(x: nat, n: nat)
    requires n > 0
    ensures var r := Min(25, x / n);
      && 0 <= r <= 25
      && (r == 25 <==> 25 * n <= x)
      && (r < 25 ==> r * n <= x < (r + 1) * n)
  {
    var q := x / n;
    FloorBelow(x, n, 25);
    if q < 25 {
      FloorDiv(x, n);
      assert Min(25, q) == q;
    }
  }

  /** Floor division brackets the quotient. */
  lemma FloorDiv(x: nat, n: nat)
    requires n > 0
    ensures (x / n) * n <= x < (x / n + 1) * n
  {
  }

  /** `x / n` reaches `k` exactly when `x` reaches `k * n`. */
  lemma FloorBelow(x: nat, n: nat, k: nat)
    requires n > 0
    ensures x / n >= k <==> x >= k * n
  {
    FloorDiv(x, n);
    var q := x / n;
    if q >= k {
      MulMono(k, q, n);
    } else {
      MulMono(q + 1, k, n);
    }
  }

  lemma MulMono(a: nat, b: nat, n: nat)
    requires a <= b
    ensures a * n <= b * n
  {
  }

  lemma DivCancel(n: nat, k: nat)
    requires n > 0
    ensures n * k / n == k
  {
    var q := n * k / n;
    var r := n * k % n;
    assert n * k == n * q + r;
    assert n * (k - q) == r;
    if q < k { MulAtLeast(n, k - q); } else if q > k { MulAtLeast(n, q - k); }
  }

  lemma MulAtLeast(n: nat, d: int)
    requires n > 0 && d >= 1
    ensures n * d >= n
  {
  }

  /** The four components of the score. */
  function Components(posts: seq<Post>): (b: Breakdown)
    requires |posts| > 0
    ensures 0 <= b.pillarBalance <= 25 && 0 <= b.ctaQuality <= 25
    ensures 0 <= b.contentVariety <= 25 && 0 <= b.platformOptimization <= 25
    ensures b.pillarBalance == 25 <==> DistinctPillars(posts) >= 5
    ensures b.ctaQuality == 25 <==> 5 * |posts| <= 6 * CtaCount(posts)
    ensures b.contentVariety == 25 <==> 25 <= 5 * DistinctTones(posts) + 3 * DistinctPlatforms(posts)
    ensures b.platformOptimization == 25 <==> OptimizedCount(posts) == |posts|
  {
    Breakdown(
      Min(25, DistinctPillars(posts) * 5),
      RatioPoints(CtaCount(posts), |posts|, 30),
      Min(25, DistinctTones(posts) * 5 + DistinctPlatforms(posts) * 3),
      RatioPoints(OptimizedCount(posts), |posts|, 25))
  }

  /** One tip per weak component, in a fixed order. */
  function Tips(posts: seq<Post>, b: Breakdown): (tips: seq<string>)
    ensures TIP_PILLARS in tips <==> DistinctPillars(posts) < 4
    ensures TIP_CTA in tips <==> 2 * CtaCount(posts) < |posts|
    ensures TIP_TONES in tips <==> DistinctTones(posts) < 3
    ensures TIP_PLATFORMS in tips <==> b.platformOptimization < 20
    ensures TIP_NO_POSTS !in tips
  {
    (if DistinctPillars(posts) < 4 then [TIP_PILLARS] else [])
    + (if 2 * CtaCount(posts) < |posts| then [TIP_CTA] else [])
    + (if DistinctTones(posts) < 3 then [TIP_TONES] else [])
    + (if b.platformOptimization < 20 then [TIP_PLATFORMS] else [])
  }

  /** `calculate_campaign_quality_score(campaign)`: four components of at most
      25 points each, a tip for every weak component, and a letter grade. */
  function CalculateCampaignQualityScore(posts: seq<Post>): (r: QualityReport)
    ensures |posts| == 0 ==> r == QualityReport(0, None, [TIP_NO_POSTS], None)
    ensures |posts| > 0 ==>
      && r.breakdown.Some? && r.grade.Some?
      && var b := r.breakdown.value;
      && 0 <= b.pillarBalance <= 25 && 0 <= b.ctaQuality <= 25
      && 0 <= b.contentVariety <= 25 && 0 <= b.platformOptimization <= 25
      && r.score == b.pillarBalance + b.ctaQuality + b.contentVariety + b.platformOptimization
      && 0 <= r.score <= 100
      && (r.grade.value == "A" <==> r.score >= 85)
      && (r.grade.value == "B" <==> 70 <= r.score < 85)
      && (r.grade.value == "C" <==> 55 <= r.score < 70)
      && (r.grade.value == "D" <==> r.score < 55)
      && (TIP_PILLARS in r.tips <==> DistinctPillars(posts) < 4)
      && (TIP_CTA in r.tips <==> 2 * CtaCount(posts) < |posts|)
      && (TIP_TONES in r.tips <==> DistinctTones(posts) < 3)
      && (TIP_PLATFORMS in r.tips <==> b.platformOptimization < 20)
      && TIP_NO_POSTS !in r.tips
  {
    if |posts| == 0 then QualityReport(0, None, [TIP_NO_POSTS], None)
    else
      var b := Components(posts);
      var score := b.pillarBalance + b.ctaQuality + b.contentVariety + b.platformOptimization;
      QualityReport(Min(100, score), Some(b), Tips(posts, b), Some(Grade(score)))
  }

  /** An A needs every component at 10 or more: the other three can make up
      at most 75 of the 85 points. */
  lemma GradeANeedsEveryComponent(posts: seq<Post>)
    ensures var r := CalculateCampaignQualityScore(posts);
      r.grade == Some("A") ==>
      && r.breakdown.Some?
      && var b := r.breakdown.value;
      b.pillarBalance >= 10 && b.ctaQuality >= 10 && b.contentVariety >= 10 && b.platformOptimization >= 10
  {
  }

  /** The score is 100 exactly when every component is full: five pillars,
      calls to action in at least five posts out of six, every post
      optimised for its platform, and enough tones and platforms. */
  lemma PerfectScoreIff(posts: seq<Post>)
    ensures CalculateCampaignQualityScore(posts).score == 100 <==>
      && DistinctPillars(posts) >= 5
      && 5 * |posts| <= 6 * CtaCount(posts)
      && OptimizedCount(posts) == |posts|
      && 25 <= 5 * DistinctTones(posts) + 3 * DistinctPlatforms(posts)
  {
    if |posts| > 0 {
      var b := Components(posts);
      assert CalculateCampaignQualityScore(posts).breakdown == Some(b);
    }
  }

  /** A campaign with a call to action and platform optimisation in every
      post, five pillars and five tones scores 100, grade A, with no tips. */
  lemma PerfectCampaign(posts: seq<Post>)
    requires |posts| > 0
    requires forall k | 0 <= k < |posts| :: posts[k].hasCta && posts[k].platformOptimized
    requires DistinctPillars(posts) >= 5 && DistinctTones(posts) >= 5
    ensures CalculateCampaignQualityScore(posts) ==
      QualityReport(100, Some(Breakdown(25, 25, 25, 25)), [], Some("A"))
  {
    Lists.FilterKeepsAll(posts, (p: Post) => p.hasCta);
    Lists.FilterKeepsAll(posts, (p: Post) => p.platformOptimized);
    var b := Components(posts);
    assert b == Breakdown(25, 25, 25, 25);
    assert Tips(posts, b) == [];
  }
}
