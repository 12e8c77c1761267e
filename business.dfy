/** A business (tenant): its subscription plan, public booking page and booking policy. */
module Businesses {
  import opened JavaLang
  import opened SubscriptionPlans

  const BOOKING_URL_PREFIX: string := "https://slotsync.com/book/"

  datatype Business = Business(
    name: Option<string>,
    slug: Option<string>,
    description: Option<string>,
    industry: Option<string>,
    email: Option<string>,
    subscriptionPlan: Option<SubscriptionPlan>,
    timezone: Option<string>,
    currency: Option<string>,
    locale: Option<string>,
    primaryColor: Option<string>,
    maxAdvanceBookingDays: Option<Int32>,
    minAdvanceBookingHours: Option<Int32>,
    defaultSlotDuration: Option<Int32>,
    cancellationHours: Option<Int32>,
    allowCustomerCancellation: Option<bool>,
    requirePaymentUpfront: Option<bool>,
    depositPercentage: Option<Int32>,
    sendEmailNotifications: Option<bool>,
    sendSmsNotifications: Option<bool>,
    reminderHoursBefore: Option<Int32>,
    widgetEnabled: Option<bool>,
    publicBookingEnabled: Option<bool>,
    ownerId: Option<int>)
  {
    /** The public booking page; a null slug is rendered as "null". */
    function PublicBookingUrl(): string {
      BOOKING_URL_PREFIX + Render(slug)
    }

    /** Whether the current plan is at least `requiredPlan` in declaration
        order; an unset plan throws when its ordinal is taken. */
    function IsPlanAllowed(requiredPlan: SubscriptionPlan): Outcome<bool> {
      if subscriptionPlan.None? then ThrowsNullPointer
      else Returns(Ordinal(subscriptionPlan.value) >= Ordinal(requiredPlan))
    }

    /** Any plan at all counts as paid. */
    predicate IsPaidPlan() {
      subscriptionPlan.Some?
    }
  }

  /** A new business with the default policy: 90 days of advance booking at
      most, 2 hours at least, 30-minute slots, 24 hours of cancellation notice. */
  function NewBusiness(name: Option<string>, slug: Option<string>, plan: Option<SubscriptionPlan>, ownerId: Option<int>): (b: Business)
    ensures b.name == name && b.slug == slug && b.subscriptionPlan == plan && b.ownerId == ownerId
    ensures b.maxAdvanceBookingDays == Some(90) && b.minAdvanceBookingHours == Some(2)
    ensures b.defaultSlotDuration == Some(30) && b.cancellationHours == Some(24)
    ensures b.allowCustomerCancellation == Some(true) && b.requirePaymentUpfront == Some(false) && b.depositPercentage == Some(0)
    ensures b.timezone == Some("Europe/Madrid") && b.currency == Some("EUR") && b.locale == Some("es")
    ensures b.primaryColor == Some("#6366f1")
    ensures b.sendEmailNotifications == Some(true) && b.sendSmsNotifications == Some(false) && b.reminderHoursBefore == Some(24)
    ensures b.widgetEnabled == Some(true) && b.publicBookingEnabled == Some(true)
  {
    Business(name, slug, None, None, None, plan, Some("Europe/Madrid"), Some("EUR"), Some("es"), Some("#6366f1"),
             Some(90), Some(2), Some(30), Some(24), Some(true), Some(false), Some(0),
             Some(true), Some(false), Some(24), Some(true), Some(true), ownerId)
  }

  /** The slug a public booking URL names, if it is one. */
  function SlugOfUrl(url: string): Option<string> {
    if BOOKING_URL_PREFIX <= url then Some(url[|BOOKING_URL_PREFIX|..]) else None
  }

  /** The public URL names the business's slug, so two businesses share a URL
      only when their slugs render alike. */
  lemma PublicBookingUrlNamesSlug(b: Business, c: Business)
    ensures SlugOfUrl(b.PublicBookingUrl()) == Some(Render(b.slug))
    ensures b.PublicBookingUrl() == c.PublicBookingUrl() ==> Render(b.slug) == Render(c.slug)
  {
    var u := b.PublicBookingUrl();
    assert u[..|BOOKING_URL_PREFIX|] == BOOKING_URL_PREFIX;
    assert u[|BOOKING_URL_PREFIX|..] == Render(b.slug);
    if u == c.PublicBookingUrl() {
      assert c.PublicBookingUrl()[|BOOKING_URL_PREFIX|..] == Render(c.slug);
    }
  }

  /** A set plan allows exactly the plans it is declared at or after. */
  lemma IsPlanAllowedIffOrdinal(b: Business, required: SubscriptionPlan)
    ensures b.subscriptionPlan.Some? ==> (b.IsPlanAllowed(required) == Returns(true) <==> Ordinal(b.subscriptionPlan.value) >= Ordinal(required))
    ensures b.subscriptionPlan.Some? ==> b.IsPlanAllowed(required).Returns?
    ensures b.subscriptionPlan.None? ==> b.IsPlanAllowed(required) == ThrowsNullPointer
  {
  }

  /** The consequences of comparing ordinals: every plan allows itself and
      STARTER, ENTERPRISE allows everything, and allowance is closed downward. */
  lemma PlanAllowanceOrder(b: Business, p: SubscriptionPlan, q: SubscriptionPlan)
    requires b.subscriptionPlan.Some?
    ensures b.IsPlanAllowed(b.subscriptionPlan.value) == Returns(true)
    ensures b.IsPlanAllowed(STARTER) == Returns(true)
    ensures b.subscriptionPlan == Some(ENTERPRISE) ==> b.IsPlanAllowed(p) == Returns(true)
    ensures b.IsPlanAllowed(p) == Returns(true) && Ordinal(q) <= Ordinal(p) ==> b.IsPlanAllowed(q) == Returns(true)
  {
  }

  /** Every plan, STARTER included, counts as paid; only a missing plan does not. */
  lemma EveryPlanIsPaid(b: Business, p: SubscriptionPlan)
    ensures b.(subscriptionPlan := Some(p)).IsPaidPlan()
    ensures !b.(subscriptionPlan := None).IsPaidPlan()
  {
  }
}
