/** Plan tiers, their entitlement tables and the lookups over them
    (lib/products.ts and lib/plan.ts). */
module Plans {
  import opened Text

  datatype PlanId = Starter | Pro | Business

  /** The plan's wire name, as stored in `admin_profiles.plan`. */
  function PlanName(p: PlanId): string {
    match p
    case Starter => "starter"
    case Pro => "pro"
    case Business => "business"
  }

  /** The inverse of `PlanName`: the plan a stored string names, if any. */
  function ParsePlan(s: string): (r: Option<PlanId>)
    ensures r.Some? ==> PlanName(r.value) == s
  {
    if s == "starter" then Some(Starter)
    else if s == "pro" then Some(Pro)
    else if s == "business" then Some(Business)
    else None
  }

  lemma ParsePlanName(p: PlanId)
    ensures ParsePlan(PlanName(p)) == Some(p)
  {
  }

  datatype PlanLimits = PlanLimits(
    maxChatbots: int,               // -1 means unlimited
    maxConversationsPerMonth: int,
    chatHistoryDays: Option<int>,   // None means unlimited
    aiEnabled: bool,
    cannedResponses: bool,
    analyticsEnabled: bool,
    fullCustomization: bool,
    removeBranding: bool,
    apiAccess: bool)

  /** `PLAN_LIMITS`. */
  function Limits(p: PlanId): PlanLimits {
    match p
    case Starter => PlanLimits(1, 100, Some(7), false, false, false, false, false, false)
    case Pro => PlanLimits(5, 2000, None, true, true, true, true, false, false)
    case Business => PlanLimits(-1, 10000, None, true, true, true, true, true, true)
  }

  /** `getPlanLimits`: the table entry for a known plan name, the starter entry for anything else. */
  function GetPlanLimits(planId: string): (r: PlanLimits)
    ensures ParsePlan(planId).Some? ==> r == Limits(ParsePlan(planId).value)
    ensures ParsePlan(planId).None? ==> r == Limits(Starter)
  {
    match ParsePlan(planId)
    case Some(p) => Limits(p)
    case None => Limits(Starter)
  }

  /** The monthly conversation ceiling grows strictly with the tier. */
  lemma ConversationCeilingIncreases()
    ensures Limits(Starter).maxConversationsPerMonth < Limits(Pro).maxConversationsPerMonth
              < Limits(Business).maxConversationsPerMonth
  {
  }

  /** Only the starter tier lacks the assistant, and only the business tier may remove branding. */
  lemma EntitlementShape(p: PlanId)
    ensures !Limits(p).aiEnabled <==> p == Starter
    ensures Limits(p).removeBranding <==> p == Business
  {
  }

  // ---------------------------------------------------------------- products

  datatype Product = Product(
    id: PlanId, name: string, description: string, priceInCents: nat,
    popular: bool, features: seq<string>, limits: PlanLimits)

  /** `PRODUCTS`. */
  const Products: seq<Product> := [
    Product(Starter, "Starter", "Perfect for small websites and personal projects", 0, false,
      ["1 Chatbot", "100 conversations/month", "Basic customization", "Email support",
       "7-day chat history"],
      Limits(Starter)),
    Product(Pro, "Pro", "For growing businesses with more traffic", 2900, true,
      ["5 Chatbots", "2,000 conversations/month", "Full customization", "Priority support",
       "Unlimited chat history", "AI Assistant", "Canned responses", "Analytics dashboard"],
      Limits(Pro)),
    Product(Business, "Business", "For teams and enterprises with high volume", 9900, false,
      ["Unlimited Chatbots", "10,000 conversations/month", "Full customization", "Dedicated support",
       "Unlimited chat history", "AI Assistant", "Canned responses", "Advanced analytics",
       "API access", "Remove Vintra branding"],
      Limits(Business))
  ]

  /** `Array.find` over a product list by wire name. */
  function FindProduct(ps: seq<Product>, productId: string): (r: Option<Product>)
    ensures r.Some? ==> r.value in ps && PlanName(r.value.id) == productId
    ensures r.None? ==> forall p :: p in ps ==> PlanName(p.id) != productId
  {
    if ps == [] then None
    else if PlanName(ps[0].id) == productId then Some(ps[0])
    else FindProduct(ps[1..], productId)
  }

  /** `getProduct`. */
  function GetProduct(productId: string): Option<Product> {
    FindProduct(Products, productId)
  }

  /** Each plan has exactly one product, whose limits are that plan's table entry. */
  lemma ProductsMatchLimits(p: PlanId)
    ensures GetProduct(PlanName(p)).Some?
    ensures GetProduct(PlanName(p)).value.id == p
    ensures GetProduct(PlanName(p)).value.limits == Limits(p)
  {
    var ps := Products;
    assert ps[0].id == Starter && ps[1].id == Pro && ps[2].id == Business;
    assert PlanName(Pro) != PlanName(Starter) by { assert PlanName(Pro)[0] != PlanName(Starter)[0]; }
    assert PlanName(Business) != PlanName(Starter) by { assert PlanName(Business)[0] != PlanName(Starter)[0]; }
    assert PlanName(Business) != PlanName(Pro) by { assert PlanName(Business)[0] != PlanName(Pro)[0]; }
    assert ps[1..][1..] == [ps[2]];
  }

  /** Product ids are pairwise distinct. */
  lemma ProductIdsDistinct()
    ensures forall i, j :: 0 <= i < j < |Products| ==> Products[i].id != Products[j].id
  {
    var ps := Products;
    assert ps[0].id == Starter && ps[1].id == Pro && ps[2].id == Business;
  }

  /** A name that is not a plan finds no product. */
  lemma GetProductUnknown(productId: string)
    requires ParsePlan(productId).None?
    ensures GetProduct(productId).None?
  {
  }

  /** `formatPrice`: "Free" for zero, otherwise "$" and the dollar amount rounded as `toFixed(0)`
      rounds a non-negative value (halves go up). */
  function FormatPrice(priceInCents: nat): (r: string)
    ensures priceInCents == 0 <==> r == "Free"
    ensures priceInCents != 0 ==> |r| > 1 && r[0] == '$' && ParseDigits(r[1..]) == Some((priceInCents + 50) / 100)
  {
    if priceInCents == 0 then "Free"
    else
      var r := "$" + Decimal((priceInCents + 50) / 100);
      ParseDecimal((priceInCents + 50) / 100);
      assert r[1..] == Decimal((priceInCents + 50) / 100);
      r
  }

  /** Whole-dollar prices print as their dollar amount. */
  lemma FormatWholeDollars(dollars: nat)
    requires dollars > 0
    ensures FormatPrice(100 * dollars) == "$" + Decimal(dollars)
  {
    assert (100 * dollars + 50) / 100 == dollars;
  }

  // ---------------------------------------------------------------- a user's plan

  /** The profile columns the plan readers select. */
  datatype PlanRow = PlanRow(
    plan: Option<string>, subscriptionStatus: Option<string>,
    conversationsThisMonth: Option<int>, conversationsResetAt: Option<int>)

  /** `UserPlan`; `planId` is the stored string, cast rather than checked. */
  datatype UserPlan = UserPlan(
    planId: string, limits: PlanLimits, subscriptionStatus: Option<string>,
    conversationsThisMonth: int, conversationsResetAt: Option<int>)

  /** `getUserPlan`: every missing or falsy column gets its default, and the limits follow the
      (possibly defaulted) plan name. The counter is returned as stored: the reset time is passed
      through and never used to reset it. */
  function GetUserPlan(profile: Option<PlanRow>): (r: UserPlan)
    ensures r.limits == GetPlanLimits(r.planId)
    ensures profile.None? ==> r == UserPlan("starter", Limits(Starter), None, 0, None)
    ensures profile.Some? && !Present(profile.value.plan) ==> r.planId == "starter"
    ensures profile.Some? && Present(profile.value.plan) ==> r.planId == profile.value.plan.value
    ensures profile.Some? && profile.value.conversationsThisMonth.Some? ==>
              r.conversationsThisMonth == profile.value.conversationsThisMonth.value
    ensures profile.Some? && profile.value.conversationsThisMonth.None? ==> r.conversationsThisMonth == 0
    ensures profile.Some? && Present(profile.value.subscriptionStatus) ==>
              r.subscriptionStatus == profile.value.subscriptionStatus
    ensures profile.Some? && !Present(profile.value.subscriptionStatus) ==> r.subscriptionStatus.None?
    ensures profile.Some? ==> r.conversationsResetAt == profile.value.conversationsResetAt
  {
    match profile
    case None => UserPlan("starter", GetPlanLimits("starter"), None, 0, None)
    case Some(row) =>
      var planId := StrOr(row.plan, "starter");
      UserPlan(
        planId, GetPlanLimits(planId),
        if Present(row.subscriptionStatus) then row.subscriptionStatus else None,
        match row.conversationsThisMonth case Some(n) => n case None => 0,
        row.conversationsResetAt)
  }

  /** The keys of `PlanLimits`, for `canUseFeature`. */
  datatype Feature =
    | MaxChatbots | MaxConversationsPerMonth | ChatHistoryDays
    | AiEnabled | CannedResponses | AnalyticsEnabled | FullCustomization | RemoveBranding | ApiAccess

  predicate IsBooleanFeature(f: Feature) {
    !(f.MaxChatbots? || f.MaxConversationsPerMonth? || f.ChatHistoryDays?)
  }

  /** The boolean value of a boolean limit. */
  function Flag(l: PlanLimits, f: Feature): bool
    requires IsBooleanFeature(f)
  {
    match f
    case AiEnabled => l.aiEnabled
    case CannedResponses => l.cannedResponses
    case AnalyticsEnabled => l.analyticsEnabled
    case FullCustomization => l.fullCustomization
    case RemoveBranding => l.removeBranding
    case ApiAccess => l.apiAccess
  }

  /** `canUseFeature`: a boolean limit answers for itself; numeric and nullable limits always allow. */
  function CanUseFeature(plan: UserPlan, f: Feature): (r: bool)
    ensures IsBooleanFeature(f) ==> r == Flag(plan.limits, f)
    ensures !IsBooleanFeature(f) ==> r
  {
    if IsBooleanFeature(f) then Flag(plan.limits, f) else true
  }

  /** `hasConversationsLeft`: the stored counter, never reset here, is strictly below the ceiling. */
  function HasConversationsLeft(plan: UserPlan): (r: bool)
    ensures r <==> plan.conversationsThisMonth < plan.limits.maxConversationsPerMonth
  {
    plan.conversationsThisMonth < plan.limits.maxConversationsPerMonth
  }

  /** The tier order used for upgrades and feature locking. */
  function Rank(p: PlanId): nat {
    match p
    case Starter => 0
    case Pro => 1
    case Business => 2
  }

  /** `getUpgradePlan`: the next tier up, or none from the top tier. */
  function GetUpgradePlan(current: PlanId): (r: Option<PlanId>)
    ensures r.Some? ==> Rank(r.value) == Rank(current) + 1
    ensures r.None? <==> current == Business
  {
    match current
    case Starter => Some(Pro)
    case Pro => Some(Business)
    case Business => None
  }

  /** Upgrading twice from the bottom reaches the top, which has no upgrade. */
  lemma UpgradeChain()
    ensures GetUpgradePlan(Starter) == Some(Pro)
    ensures GetUpgradePlan(Pro) == Some(Business)
    ensures GetUpgradePlan(Business).None?
  {
  }
}
