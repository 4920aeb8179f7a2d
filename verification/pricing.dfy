/** The client-side pricing rules of frontend/src/contexts/PricingContext.js:
    the plan table, feature access and locks, the credit summary shown to
    the user and the yearly-discount percentage. */
module Pricing {
  import opened Wrappers
  import Plans

  /** A row of `PRICING_CONFIG.plans`: prices in whole currency units, the
      monthly generation allowance and the feature switches. A feature the
      row does not mention is off. */
  datatype Plan = Plan(monthlyPrice: nat, yearlyPrice: nat, monthlyGenerations: nat, features: map<string, bool>)

  const FREE_PLAN: Plan := Plan(0, 0, 3, map[
    "basicGeneration" := true, "allContentTypes" := true, "basicTones" := true,
    "extendedTones" := false, "favorites" := false, "postGoals" := false,
    "brandAI" := false, "marketingSets" := false, "advancedStyles" := false,
    "analytics" := false, "export" := false, "prioritySupport" := false,
    "priorityProcessing" := false])

  const PRO_PLAN: Plan := Plan(15, 126, 200, map[
    "basicGeneration" := true, "allContentTypes" := true, "basicTones" := true,
    "extendedTones" := true, "favorites" := true, "postGoals" := true,
    "brandAI" := true, "marketingSets" := true, "advancedStyles" := true,
    "analytics" := true, "export" := true, "prioritySupport" := true,
    "priorityProcessing" := false])

  const BUSINESS_PLAN: Plan := Plan(39, 327, 600, map[
    "basicGeneration" := true, "allContentTypes" := true, "basicTones" := true,
    "extendedTones" := true, "favorites" := true, "postGoals" := true,
    "brandAI" := true, "marketingSets" := true, "advancedStyles" := true,
    "analytics" := true, "export" := true, "prioritySupport" := true,
    "priorityProcessing" := true, "batchGeneration" := true, "teamAccess" := true])

  const PLANS: map<string, Plan> := map["free" := FREE_PLAN, "pro" := PRO_PLAN, "business" := BUSINESS_PLAN]

  /** The plans an upgrade prompt can point to, cheapest first. */
  const UPGRADE_ORDER: seq<string> := ["pro", "business"]

  /** What an upgrade prompt shows for a locked feature. */
  datatype Lock = Lock(requiredPlan: string, icon: Option<string>)

  const LOCKED_FEATURES: map<string, Lock> := map[
    "brandAI" := Lock("pro", Some("Palette")),
    "marketingSets" := Lock("pro", Some("Layout")),
    "advancedStyles" := Lock("pro", Some("Wand2")),
    "analytics" := Lock("pro", Some("BarChart3")),
    "batchGeneration" := Lock("business", Some("Layers"))]

  /** `currentPlan = user?.subscription_plan || 'free'`. */
  function CurrentPlan(plan: Option<string>): string {
    StrOr(plan, "free")
  }

  /** Whether the row named `planId` switches `feature` on. */
  predicate Grants(planId: string, feature: string) {
    planId in PLANS && feature in PLANS[planId].features && PLANS[planId].features[feature]
  }

  /** `hasFeatureAccess(featureKey)`: unknown plans and unknown features
      have no access. */
  function HasFeatureAccess(plan: Option<string>, feature: string): (r: bool)
    ensures r ==> CurrentPlan(plan) in PLANS && feature in PLANS[CurrentPlan(plan)].features
    ensures r <==> Grants(CurrentPlan(plan), feature)
    ensures plan.None? ==> (r <==> feature in {"basicGeneration", "allContentTypes", "basicTones"})
  {
    var id := CurrentPlan(plan);
    if id in PLANS && feature in PLANS[id].features then PLANS[id].features[feature] else false
  }

  /** Each plan grants everything the cheaper plans grant. */
  lemma AccessGrowsWithPlan(feature: string)
    ensures Grants("free", feature) ==> Grants("pro", feature)
    ensures Grants("pro", feature) ==> Grants("business", feature)
  {
  }

  /** `getFeatureLock(featureKey)` as written: no lock with access; otherwise
      the configured lock, or a bare "pro" lock for any other feature. */
  function GetFeatureLock(plan: Option<string>, feature: string): (r: Option<Lock>)
    ensures r.None? <==> HasFeatureAccess(plan, feature)
    ensures r.Some? && feature in LOCKED_FEATURES ==> r.value == LOCKED_FEATURES[feature]
    ensures r.Some? && feature !in LOCKED_FEATURES ==> r.value == Lock("pro", None)
  {
    if HasFeatureAccess(plan, feature) then None
    else if feature in LOCKED_FEATURES then Some(LOCKED_FEATURES[feature])
    else Some(Lock("pro", None))
  }

  /** The default lock can send a user to a plan that does not unlock the
      feature: a Pro user asking for priority processing, or a Free user
      asking for team access, is told to get Pro, and Pro grants neither. */
  lemma DefaultLockCanNameWrongPlan()
    ensures GetFeatureLock(Some("pro"), "priorityProcessing") == Some(Lock("pro", None))
    ensures !Grants("pro", "priorityProcessing")
    ensures GetFeatureLock(None, "teamAccess") == Some(Lock("pro", None))
    ensures !Grants("pro", "teamAccess")
  {
  }

  /** The cheapest plan among `ids` that grants `feature`. */
  function CheapestGranting(ids: seq<string>, feature: string): (r: Option<string>)
    ensures r.Some? ==> r.value in ids && Grants(r.value, feature)
    ensures r.None? ==> forall id | id in ids :: !Grants(id, feature)
    ensures r.Some? ==> forall k | 0 <= k < |ids| && ids[k] != r.value && Grants(ids[k], feature) ::
      exists j :: 0 <= j < k && ids[j] == r.value
  {
    if |ids| == 0 then None
    else if Grants(ids[0], feature) then Some(ids[0])
    else
      var rest := CheapestGranting(ids[1..], feature);
      assert rest.Some? ==> forall k | 1 <= k < |ids| && ids[k] != rest.value && Grants(ids[k], feature) ::
        exists j :: 0 <= j < k - 1 && ids[1..][j] == rest.value;
      rest
  }

  /** The lock the upgrade prompt evidently means: the configured lock, or
      else the cheapest paid plan that really grants the feature ("pro" remains
      the answer for a feature no paid plan grants). */
  function GetFeatureLockCorrected(plan: Option<string>, feature: string): (r: Option<Lock>)
    ensures r.None? <==> HasFeatureAccess(plan, feature)
    ensures r.Some? && feature in LOCKED_FEATURES ==> r.value == LOCKED_FEATURES[feature]
  {
    if HasFeatureAccess(plan, feature) then None
    else if feature in LOCKED_FEATURES then Some(LOCKED_FEATURES[feature])
    else Some(Lock(CheapestGranting(UPGRADE_ORDER, feature).GetOr("pro"), None))
  }

  /** Upgrading to the plan a corrected lock names unlocks the feature
      whenever a paid plan grants it at all, and Business is named only
      for what Pro lacks. */
  lemma CorrectedLockUnlocks(plan: Option<string>, feature: string)
    requires Grants("business", feature)
    requires GetFeatureLockCorrected(plan, feature).Some?
    ensures var req := GetFeatureLockCorrected(plan, feature).value.requiredPlan;
      && Grants(req, feature)
      && (req == "business" ==> !Grants("pro", feature))
  {
    if feature !in LOCKED_FEATURES {
      assert UPGRADE_ORDER[1] == "business";
    }
  }

  /** The two locks differ only where the written one is wrong. */
  lemma CorrectedAgreesWhereProIsRight(plan: Option<string>, feature: string)
    requires Grants("pro", feature)
    ensures GetFeatureLockCorrected(plan, feature) == GetFeatureLock(plan, feature)
  {
  }

  /** The user fields the credit summary reads; each may be absent. */
  datatype UserCredits = UserCredits(
    subscriptionPlan: Option<string>,
    currentUsage: Option<int>,
    monthlyLimit: Option<int>,
    bonusCredits: Option<int>)

  /** The numeric part of `getUsageStats()` (the percentage is left out). */
  datatype UsageStats = UsageStats(currentUsage: int, monthlyLimit: int, bonusCredits: int, remainingCredits: int)

  const LOW_CREDITS: int := 10

  /** `getUsageStats()`: missing or zero fields read as usage 0, limit 3 and
      bonus 0; the displayed limit falls back to the plan's allowance. */
  function GetUsageStats(u: UserCredits): (r: UsageStats)
    ensures r.remainingCredits >= 0
    ensures r.remainingCredits > 0 ==> r.remainingCredits == IntOr(u.monthlyLimit, 3) - r.currentUsage + r.bonusCredits
    // a positive raw balance, bonus included, is shown in full even past the monthly limit
    ensures IntOr(u.monthlyLimit, 3) - r.currentUsage + r.bonusCredits > 0 ==>
      r.remainingCredits == IntOr(u.monthlyLimit, 3) - r.currentUsage + r.bonusCredits
    ensures r.currentUsage == IntOr(u.currentUsage, 0) && r.bonusCredits == IntOr(u.bonusCredits, 0)
    ensures u.monthlyLimit.Some? && u.monthlyLimit.value != 0 ==> r.monthlyLimit == u.monthlyLimit.value
    ensures IntOr(u.monthlyLimit, 0) == 0 && CurrentPlan(u.subscriptionPlan) in PLANS ==>
      r.monthlyLimit == PLANS[CurrentPlan(u.subscriptionPlan)].monthlyGenerations
  {
    var id := CurrentPlan(u.subscriptionPlan);
    var planLimit := if id in PLANS then PLANS[id].monthlyGenerations else 0;
    var usage := IntOr(u.currentUsage, 0);
    var bonus := IntOr(u.bonusCredits, 0);
    UsageStats(usage, IntOr(u.monthlyLimit, IntOr(Some(planLimit), 3)), bonus,
      Max(0, IntOr(u.monthlyLimit, 3) - usage + bonus))
  }

  /** `isCreditsLow()`: some credits left, but fewer than ten. */
  predicate IsCreditsLow(u: UserCredits) {
    var rem := GetUsageStats(u).remainingCredits;
    rem < LOW_CREDITS && rem > 0
  }

  /** `isCreditsExhausted()`. */
  predicate IsCreditsExhausted(u: UserCredits) {
    GetUsageStats(u).remainingCredits <= 0
  }

  /** The two warnings are exclusive, and exhausted means nothing is left. */
  lemma LowAndExhaustedExclusive(u: UserCredits)
    ensures !(IsCreditsLow(u) && IsCreditsExhausted(u))
    ensures IsCreditsExhausted(u) <==> GetUsageStats(u).remainingCredits == 0
    ensures IsCreditsLow(u) || IsCreditsExhausted(u) <==> GetUsageStats(u).remainingCredits < LOW_CREDITS
  {
  }

  /** For a user record holding the backend's own numbers, the page shows
      the backend's balance; the page's "low" is the backend's "low" minus
      the exhausted case, which the backend counts as low too. */
  lemma {:induction false} FrontendMatchesBackendBalance(plan: string, usage: nat, bonus: Option<int>)
    ensures var b := Plans.GetCreditBalance(Some(plan), usage, bonus);
      var u := UserCredits(Some(plan), Some(usage), Some(b.monthlyLimit), bonus);
      && GetUsageStats(u).remainingCredits == b.remaining
      && (IsCreditsLow(u) <==> b.isLow && !b.isExhausted)
      && (IsCreditsExhausted(u) <==> b.isExhausted)
  {
    var b := Plans.GetCreditBalance(Some(plan), usage, bonus);
    assert b.monthlyLimit != 0;
  }

  /** `getYearlySavings(planId)`: the yearly discount in whole percent,
      rounded half up; 0 for an unknown or free plan. */
  function GetYearlySavings(planId: string): (r: int)
    ensures planId !in PLANS || PLANS[planId].monthlyPrice == 0 ==> r == 0
    // otherwise r is the percentage 100 * savings / (12 * monthly) rounded to nearest, halves up
    ensures planId in PLANS && PLANS[planId].monthlyPrice > 0 ==>
      var total := 12 * PLANS[planId].monthlyPrice;
      var savings := total - PLANS[planId].yearlyPrice;
      && 2 * (100 * savings - r * total) < total
      && -total <= 2 * (100 * savings - r * total)
  {
    if planId !in PLANS || PLANS[planId].monthlyPrice == 0 then 0
    else
      var total := 12 * PLANS[planId].monthlyPrice;
      var savings := total - PLANS[planId].yearlyPrice;
      // Math.round(x) is floor(x + 1/2)
      (200 * savings + total) / (2 * total)
  }

  /** Both paid plans advertise a 30% yearly discount. */
  lemma PaidPlansSaveThirtyPercent()
    ensures GetYearlySavings("pro") == 30 && GetYearlySavings("business") == 30
    ensures GetYearlySavings("free") == 0
  {
  }
}
