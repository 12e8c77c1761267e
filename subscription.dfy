/** A business's subscription to a plan, as the billing provider reports it. */
module Subscriptions {
  import opened JavaLang
  import opened SubscriptionPlans

  datatype Subscription = Subscription(
    plan: Option<SubscriptionPlan>,
    stripeSubscriptionId: Option<string>,
    stripeCustomerId: Option<string>,
    stripePriceId: Option<string>,
    amount: Option<int>,
    currency: Option<string>,
    billingCycle: Option<string>,
    status: Option<string>,
    trialEndsAt: Option<int>,
    currentPeriodStart: Option<int>,
    currentPeriodEnd: Option<int>,
    cancelAtPeriodEnd: Option<bool>,
    cancelledAt: Option<int>,
    businessId: Option<int>)
  {
    predicate IsActive() {
      status == Some("active") || status == Some("trialing")
    }

    /** Trialing, with a trial end strictly after `now`. */
    predicate IsInTrial(now: int) {
      status == Some("trialing") && trialEndsAt.Some? && trialEndsAt.value > now
    }
  }

  /** A new subscription: billed monthly in euros, not set to cancel, no status yet. */
  function NewSubscription(plan: Option<SubscriptionPlan>, amount: Option<int>, businessId: Option<int>): (s: Subscription)
    ensures s.plan == plan && s.amount == amount && s.businessId == businessId
    ensures s.billingCycle == Some("monthly") && s.cancelAtPeriodEnd == Some(false) && s.currency == Some("EUR")
    ensures s.status == None && s.trialEndsAt == None && s.cancelledAt == None
    ensures !s.IsActive()
  {
    Subscription(plan, None, None, None, amount, Some("EUR"), Some("monthly"), None, None, None, None, Some(false), None, businessId)
  }

  /** Active exactly for the statuses "active" and "trialing"; any other text, or none, is inactive. */
  lemma IsActiveStatuses(s: Subscription, other: string)
    requires other != "active" && other != "trialing"
    ensures s.(status := Some("active")).IsActive() && s.(status := Some("trialing")).IsActive()
    ensures !s.(status := Some(other)).IsActive() && !s.(status := None).IsActive()
  {
  }

  /** A subscription in trial is active; once the trial has ended it is no
      longer in trial yet stays active while its status reads "trialing". */
  lemma TrialAndActive(s: Subscription, now: int)
    ensures s.IsInTrial(now) ==> s.IsActive()
    ensures s.status == Some("trialing") && s.trialEndsAt.Some? && s.trialEndsAt.value <= now ==> s.IsActive() && !s.IsInTrial(now)
    ensures s.status == Some("trialing") && s.trialEndsAt.None? ==> s.IsActive() && !s.IsInTrial(now)
  {
  }
}
