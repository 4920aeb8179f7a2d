/** What a subscription plan grants in backend/server.py: the generation
    feature table behind `get_plan_features` and the credit arithmetic of
    `get_credit_balance`. */
module Plans {
  import opened Wrappers

  /** One row of `PLAN_FEATURES`. */
  datatype PlanFeatures = PlanFeatures(
    favorites: bool,
    postGoals: bool,
    extendedTones: bool,
    regenerateFree: bool,
    priorityProcessing: bool,
    maxTokens: nat,
    detailedOutput: bool)

  const FREE_FEATURES: PlanFeatures := PlanFeatures(false, false, false, false, false, 250, false)
  const PRO_FEATURES: PlanFeatures := PlanFeatures(true, true, true, false, false, 350, false)
  const BUSINESS_FEATURES: PlanFeatures := PlanFeatures(true, true, true, true, true, 500, true)

  const PLAN_FEATURES: map<string, PlanFeatures> :=
    map["free" := FREE_FEATURES, "pro" := PRO_FEATURES, "business" := BUSINESS_FEATURES]

  /** `a` grants everything `b` grants, and at least as many tokens. */
  predicate Grants(a: PlanFeatures, b: PlanFeatures) {
    && (b.favorites ==> a.favorites)
    && (b.postGoals ==> a.postGoals)
    && (b.extendedTones ==> a.extendedTones)
    && (b.regenerateFree ==> a.regenerateFree)
    && (b.priorityProcessing ==> a.priorityProcessing)
    && (b.detailedOutput ==> a.detailedOutput)
    && b.maxTokens <= a.maxTokens
  }

  /** `get_plan_features(plan)`: a plan missing from the table gets the free
      row. Every plan, known or not, sits between free and business. */
  function GetPlanFeatures(plan: string): (r: PlanFeatures)
    ensures Grants(r, FREE_FEATURES) && Grants(BUSINESS_FEATURES, r)
    ensures plan !in PLAN_FEATURES.Keys ==> r == FREE_FEATURES
    ensures r.maxTokens == 250 <==> plan !in {"pro", "business"}
  {
    if plan in PLAN_FEATURES then PLAN_FEATURES[plan] else PLAN_FEATURES["free"]
  }

  /** The rows are ordered free < pro < business, each strictly above the last. */
  lemma PlansAreOrdered()
    ensures Grants(GetPlanFeatures("pro"), GetPlanFeatures("free"))
    ensures Grants(GetPlanFeatures("business"), GetPlanFeatures("pro"))
    ensures !Grants(GetPlanFeatures("free"), GetPlanFeatures("pro"))
    ensures !Grants(GetPlanFeatures("pro"), GetPlanFeatures("business"))
  {
  }

  /** Monthly generation credits by plan; anything else counts as free. */
  const PLAN_CREDIT_LIMITS: map<string, int> := map["free" := 3, "pro" := 200, "business" := 600]
  const DEFAULT_CREDIT_LIMIT: int := 3
  /** Below this many credits the balance is reported as low. */
  const LOW_CREDIT_THRESHOLD: int := 10

  /** The `/credits/balance` response. */
  datatype CreditBalance = CreditBalance(
    plan: string,
    monthlyLimit: int,
    currentUsage: nat,
    bonusCredits: int,
    remaining: int,
    isLow: bool,
    isExhausted: bool)

  /** `get_credit_balance`: `plan` is the user's `subscription_plan` (absent
      reads as "free"), `usage` the generations counted this month and `bonus`
      the user's `bonus_credits` (absent reads as 0). */
  function GetCreditBalance(plan: Option<string>, usage: nat, bonus: Option<int>): (r: CreditBalance)
    ensures r.plan == plan.GetOr("free")
    ensures r.monthlyLimit == (if r.plan in PLAN_CREDIT_LIMITS then PLAN_CREDIT_LIMITS[r.plan] else DEFAULT_CREDIT_LIMIT)
    ensures r.currentUsage == usage && r.bonusCredits == bonus.GetOr(0)
    // the balance shown is never negative, and otherwise is exactly limit - usage + bonus
    ensures r.remaining >= 0
    ensures r.remaining > 0 ==> r.remaining == r.monthlyLimit - usage + r.bonusCredits
    ensures r.monthlyLimit - usage + r.bonusCredits > 0 ==> r.remaining == r.monthlyLimit - usage + r.bonusCredits
    // exhausted exactly when nothing remains; low exactly when fewer than 10 remain
    ensures r.isExhausted <==> r.remaining == 0
    ensures r.isLow <==> r.remaining < LOW_CREDIT_THRESHOLD
  {
    var name := plan.GetOr("free");
    var limit := if name in PLAN_CREDIT_LIMITS then PLAN_CREDIT_LIMITS[name] else DEFAULT_CREDIT_LIMIT;
    var b := bonus.GetOr(0);
    var raw := limit - usage + b;
    CreditBalance(name, limit, usage, b, Max(0, raw), raw < LOW_CREDIT_THRESHOLD, raw <= 0)
  }

  /** The low flag includes the exhausted case: an exhausted balance is also
      reported as low. */
  lemma ExhaustedIsAlsoLow(plan: Option<string>, usage: nat, bonus: Option<int>)
    ensures GetCreditBalance(plan, usage, bonus).isExhausted ==> GetCreditBalance(plan, usage, bonus).isLow
  {
  }

  /** Each generation uses one credit: one more generation lowers a positive
      balance by exactly one and never raises it. */
  lemma OneGenerationCostsOneCredit(plan: Option<string>, usage: nat, bonus: Option<int>)
    ensures var before := GetCreditBalance(plan, usage, bonus);
      var after := GetCreditBalance(plan, usage + 1, bonus);
      && after.remaining <= before.remaining
      && (before.remaining > 0 ==> after.remaining == before.remaining - 1)
  {
  }
}
