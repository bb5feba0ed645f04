/** Plan changes and plan reads: the payment-provider webhook (app/api/stripe/webhook/route.ts),
    the manual plan update (app/api/plan/update/route.ts) and the plan read (app/api/plan/route.ts).
    Signature verification and the signed-in user are inputs; the profiles live in the store. */
module Billing {
  import opened Text
  import opened ChatData
  import opened Plans
  import opened ChatStore

  /** The plan a paid amount buys: 29 dollars is pro, 99 is business, anything else starter. */
  function PlanForAmount(amount: Option<int>): (r: string)
    ensures r == "pro" <==> amount == Some(2900)
    ensures r == "business" <==> amount == Some(9900)
    ensures ParsePlan(r).Some?
  {
    if amount == Some(2900) then "pro" else if amount == Some(9900) then "business" else "starter"
  }

  /** The amount that derives each plan is its product's price. */
  lemma PriceBuysPlan(p: PlanId)
    ensures GetProduct(PlanName(p)).Some?
    ensures var price := GetProduct(PlanName(p)).value.priceInCents;
      && (p != Starter ==> PlanForAmount(Some(price)) == PlanName(p))
      && (PlanForAmount(Some(price)) == "starter" <==> p == Starter)
  {
    ProductsMatchLimits(p);
    var ps := Products;
    assert ps[0].priceInCents == 0 && ps[1].priceInCents == 2900 && ps[2].priceInCents == 9900;
    assert PlanName(Pro) != "starter" && PlanName(Business) != "starter" by {
      assert PlanName(Pro)[0] != 's' && PlanName(Business)[0] != 's';
    }
  }

  /** The events the webhook distinguishes, with the fields it reads. Times are already
      converted to instants. */
  datatype StripeEvent =
    | CheckoutCompleted(checkoutCustomer: Option<string>, subscriptionId: Option<string>, userId: Option<Id>,
                        amountTotal: Option<int>)
    | SubscriptionUpdated(customerId: string, status: string, periodStart: Time, periodEnd: Time,
                          unitAmount: Option<int>)
    | SubscriptionDeleted(customerId: string)
    | PaymentFailed(customerId: string)
    | OtherEvent(eventType: string)

  datatype WebhookReply = MissingSignature | BadSignature | Received

  const ThirtyDays: int := 30 * 24 * 60 * 60 * 1000

  /** The profiles whose stored customer id is `customerId`. */
  function Owners(profiles: map<Id, Profile>, customerId: string): set<Id> {
    set id | id in profiles && profiles[id].stripeCustomerId == Some(customerId)
  }

  /** `.eq('stripe_customer_id', c).single()`: a profile only when exactly one matches. */
  ghost function CustomerOwner(profiles: map<Id, Profile>, customerId: string): (r: Option<Id>)
    ensures r.Some? ==> Owners(profiles, customerId) == {r.value}
    ensures r.None? ==> |Owners(profiles, customerId)| != 1
  {
    var s := Owners(profiles, customerId);
    if |s| == 1 then
      var id :| id in s;
      SingletonIs(s, id);
      Some(id)
    else None
  }

  lemma SingletonIs<T>(s: set<T>, x: T)
    requires |s| == 1 && x in s
    ensures s == {x}
  {
    var rest := s - {x};
    assert |rest| == 0;
    assert s == rest + {x};
  }

  /** The profile after a completed checkout: plan from the amount, both provider ids, status
      active, a thirty-day period from now, and the monthly counter reset. */
  function CheckedOut(p: Profile, e: StripeEvent, now: Time): Profile
    requires e.CheckoutCompleted?
  {
    p.(plan := PlanForAmount(e.amountTotal), stripeCustomerId := e.checkoutCustomer,
       stripeSubscriptionId := e.subscriptionId, subscriptionStatus := Some("active"),
       planPeriodStart := Some(now), planPeriodEnd := Some(now + ThirtyDays),
       conversationsThisMonth := 0, conversationsResetAt := Some(now))
  }

  /** The effect of a verified event on the profiles. */
  ghost function ApplyEvent(profiles: map<Id, Profile>, e: StripeEvent, now: Time): map<Id, Profile> {
    match e
    case CheckoutCompleted(_, _, userId, _) =>
      if userId.Some? && userId.value in profiles
      then profiles[userId.value := CheckedOut(profiles[userId.value], e, now)]
      else profiles
    case SubscriptionUpdated(c, status, start, end, amount) =>
      (match CustomerOwner(profiles, c)
       case Some(id) =>
         profiles[id := profiles[id].(plan := PlanForAmount(amount), subscriptionStatus := Some(status),
                                      planPeriodStart := Some(start), planPeriodEnd := Some(end))]
       case None => profiles)
    case SubscriptionDeleted(c) =>
      (match CustomerOwner(profiles, c)
       case Some(id) =>
         profiles[id := profiles[id].(plan := "starter", subscriptionStatus := Some("canceled"),
                                      stripeSubscriptionId := None)]
       case None => profiles)
    case PaymentFailed(c) =>
      (match CustomerOwner(profiles, c)
       case Some(id) => profiles[id := profiles[id].(subscriptionStatus := Some("past_due"))]
       case None => profiles)
    case OtherEvent(_) => profiles
  }

  /** Looks up the one profile with a customer id, as the handler's `.single()` read does. */
  method FindOwner(profiles: map<Id, Profile>, customerId: string) returns (r: Option<Id>)
    ensures r == CustomerOwner(profiles, customerId)
  {
    var s := Owners(profiles, customerId);
    if |s| == 1 {
      var id :| id in s;
      SingletonIs(s, id);
      r := Some(id);
    } else {
      r := None;
    }
  }

  /** POST /api/stripe/webhook. Only the profiles change. */
  method HandleWebhook(db: Store, signature: Option<string>, verified: bool, e: StripeEvent, now: Time)
    returns (r: WebhookReply)
    modifies db
    ensures db.configs == old(db.configs) && db.sessions == old(db.sessions)
    ensures db.messages == old(db.messages) && db.nextId == old(db.nextId)
    ensures !Present(signature) ==> r == MissingSignature && db.profiles == old(db.profiles)
    ensures Present(signature) && !verified ==> r == BadSignature && db.profiles == old(db.profiles)
    ensures Present(signature) && verified ==> r == Received && db.profiles == ApplyEvent(old(db.profiles), e, now)
  {
    if !Present(signature) {
      return MissingSignature;
    }
    if !verified {
      return BadSignature;
    }
    match e {
      case CheckoutCompleted(_, _, userId, _) =>
        if userId.Some? && userId.value in db.profiles {
          db.profiles := db.profiles[userId.value := CheckedOut(db.profiles[userId.value], e, now)];
        }
      case SubscriptionUpdated(c, status, start, end, amount) =>
        var owner := FindOwner(db.profiles, c);
        if owner.Some? {
          var id := owner.value;
          db.profiles := db.profiles[id := db.profiles[id].(plan := PlanForAmount(amount),
            subscriptionStatus := Some(status), planPeriodStart := Some(start), planPeriodEnd := Some(end))];
        }
      case SubscriptionDeleted(c) =>
        var owner := FindOwner(db.profiles, c);
        if owner.Some? {
          var id := owner.value;
          db.profiles := db.profiles[id := db.profiles[id].(plan := "starter",
            subscriptionStatus := Some("canceled"), stripeSubscriptionId := None)];
        }
      case PaymentFailed(c) =>
        var owner := FindOwner(db.profiles, c);
        if owner.Some? {
          var id := owner.value;
          db.profiles := db.profiles[id := db.profiles[id].(subscriptionStatus := Some("past_due"))];
        }
      case OtherEvent(_) =>
    }
    r := Received;
  }

  /** The plan columns of a stored profile, as the plan readers select them. */
  function RowOf(p: Profile): PlanRow {
    PlanRow(Some(p.plan), p.subscriptionStatus, Some(p.conversationsThisMonth), p.conversationsResetAt)
  }

  /** Every plan the webhook writes is one of the three plan names, so stored plans stay valid. */
  lemma ApplyEventKeepsPlansValid(profiles: map<Id, Profile>, e: StripeEvent, now: Time)
    requires forall id :: id in profiles ==> ParsePlan(profiles[id].plan).Some?
    ensures forall id :: id in ApplyEvent(profiles, e, now) ==> ParsePlan(ApplyEvent(profiles, e, now)[id].plan).Some?
  {
  }

  /** An event touches at most one profile, and only the profile it resolves to. */
  lemma ApplyEventTouchesOne(profiles: map<Id, Profile>, e: StripeEvent, now: Time, other: Id)
    requires other in profiles
    requires e.CheckoutCompleted? ==> e.userId != Some(other)
    requires !e.CheckoutCompleted? && !e.OtherEvent? ==> CustomerOwner(profiles, e.customerId) != Some(other)
    ensures ApplyEvent(profiles, e, now).Keys == profiles.Keys
    ensures ApplyEvent(profiles, e, now)[other] == profiles[other]
  {
  }

  /** After a completed checkout the owner starts the month with conversations left and the
      limits of the plan the amount bought. */
  lemma CheckoutGrantsPlan(profiles: map<Id, Profile>, e: StripeEvent, now: Time, user: Id)
    requires e.CheckoutCompleted? && e.userId == Some(user) && user in profiles
    ensures var plan := GetUserPlan(Some(RowOf(ApplyEvent(profiles, e, now)[user])));
      && HasConversationsLeft(plan)
      && plan.limits == Limits(ParsePlan(PlanForAmount(e.amountTotal)).value)
  {
    var a := PlanForAmount(e.amountTotal);
    var p := ParsePlan(a).value;
    assert PlanName(p) == a;
    ParsePlanName(p);
    assert a != "";
  }

  /** A canceled subscription falls back to the starter limits: no assistant, branding on. */
  lemma CancellationDowngrades(profiles: map<Id, Profile>, c: string, now: Time)
    requires CustomerOwner(profiles, c).Some?
    ensures var id := CustomerOwner(profiles, c).value;
      var plan := GetUserPlan(Some(RowOf(ApplyEvent(profiles, SubscriptionDeleted(c), now)[id])));
      && plan.limits == Limits(Starter)
      && !CanUseFeature(plan, AiEnabled)
      && plan.subscriptionStatus == Some("canceled")
  {
  }

  /** A failed payment only flags the subscription: the plan and its limits stay. */
  lemma PaymentFailureKeepsPlan(profiles: map<Id, Profile>, c: string, now: Time)
    requires CustomerOwner(profiles, c).Some?
    ensures var id := CustomerOwner(profiles, c).value;
      var after := ApplyEvent(profiles, PaymentFailed(c), now)[id];
      && after.plan == profiles[id].plan
      && after.conversationsThisMonth == profiles[id].conversationsThisMonth
      && after.subscriptionStatus == Some("past_due")
  {
  }

  // ---------------------------------------------------------------- manual plan update

  datatype PlanUpdateReply = UpdateUnauthorized | InvalidPlan | UpdateFailed | PlanUpdated(planId: string, limits: PlanLimits)

  /** POST /api/plan/update. A signed-in user with no profile row still gets a success answer:
      the update simply matches no row. */
  method UpdatePlan(db: Store, user: Option<Id>, plan: Option<string>, now: Time, storeFails: bool)
    returns (r: PlanUpdateReply)
    modifies db
    ensures db.configs == old(db.configs) && db.sessions == old(db.sessions)
    ensures db.messages == old(db.messages) && db.nextId == old(db.nextId)
    ensures user.None? ==> r == UpdateUnauthorized
    ensures user.Some? && (plan.None? || ParsePlan(plan.value).None?) ==> r == InvalidPlan
    ensures user.Some? && plan.Some? && ParsePlan(plan.value).Some? && storeFails ==> r == UpdateFailed
    ensures user.Some? && plan.Some? && ParsePlan(plan.value).Some? && !storeFails ==> r.PlanUpdated?
    ensures !r.PlanUpdated? ==> db.profiles == old(db.profiles)
    ensures r.PlanUpdated? ==>
      && user.Some? && plan.Some? && !storeFails
      && r.planId == plan.value && r.limits == Limits(ParsePlan(plan.value).value)
      && db.profiles == if user.value in old(db.profiles)
                        then old(db.profiles)[user.value := old(db.profiles)[user.value].(
                               plan := plan.value, subscriptionStatus := Some("active"), updatedAt := now)]
                        else old(db.profiles)
  {
    if user.None? {
      return UpdateUnauthorized;
    }
    if plan.None? || ParsePlan(plan.value).None? {
      return InvalidPlan;
    }
    if storeFails {
      return UpdateFailed;
    }
    var id := user.value;
    if id in db.profiles {
      db.profiles := db.profiles[id := db.profiles[id].(plan := plan.value, subscriptionStatus := Some("active"),
                                                         updatedAt := now)];
    }
    r := PlanUpdated(plan.value, GetPlanLimits(plan.value));
  }

  // ---------------------------------------------------------------- plan read

  datatype PlanReadReply = ReadUnauthorized | ReadFailed | PlanRead(plan: UserPlan)

  /** GET /api/plan: the same defaults as the plan library's reader. */
  function ReadPlan(user: Option<Id>, profiles: map<Id, Profile>, storeThrows: bool): (r: PlanReadReply)
    ensures user.None? <==> r.ReadUnauthorized?
    ensures user.Some? && storeThrows <==> r.ReadFailed?
    ensures r.PlanRead? ==> r.plan.limits == GetPlanLimits(r.plan.planId)
    ensures r.PlanRead? && user.value !in profiles ==> r.plan == UserPlan("starter", Limits(Starter), None, 0, None)
    ensures r.PlanRead? && user.value in profiles ==>
      && r.plan == GetUserPlan(Some(RowOf(profiles[user.value])))
      && r.plan.conversationsThisMonth == profiles[user.value].conversationsThisMonth
      && r.plan.conversationsResetAt == profiles[user.value].conversationsResetAt
  {
    if user.None? then ReadUnauthorized
    else if storeThrows then ReadFailed
    else PlanRead(GetUserPlan(if user.value in profiles then Some(RowOf(profiles[user.value])) else None))
  }

  /** What the plan update stores is what the plan read then reports. */
  lemma UpdateThenRead(profiles: map<Id, Profile>, user: Id, plan: PlanId, now: Time)
    requires user in profiles
    ensures var after := profiles[user := profiles[user].(plan := PlanName(plan),
                                   subscriptionStatus := Some("active"), updatedAt := now)];
      var r := ReadPlan(Some(user), after, false);
      && r.PlanRead? && r.plan.planId == PlanName(plan) && r.plan.limits == Limits(plan)
      && r.plan.subscriptionStatus == Some("active")
  {
    ParsePlanName(plan);
  }
}
