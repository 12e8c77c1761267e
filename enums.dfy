// The enumerations of the domain, in their Java declaration order. Each gets
// its own module because several of them share constant names.

module BookingStatuses {
  datatype BookingStatus = PENDING | CONFIRMED | IN_PROGRESS | COMPLETED | CANCELLED | NO_SHOW | RESCHEDULED
}

module PaymentStatuses {
  datatype PaymentStatus = PENDING | PROCESSING | COMPLETED | FAILED | REFUNDED | CANCELLED
}

module SubscriptionPlans {
  datatype SubscriptionPlan = STARTER | PROFESSIONAL | BUSINESS | ENTERPRISE

  /** `SubscriptionPlan.ordinal()`: the position in the declaration. */
  function Ordinal(p: SubscriptionPlan): nat {
    match p
    case STARTER => 0
    case PROFESSIONAL => 1
    case BUSINESS => 2
    case ENTERPRISE => 3
  }
}

module Roles {
  datatype Role = SUPER_ADMIN | BUSINESS_OWNER | BUSINESS_ADMIN | PROFESSIONAL | CUSTOMER
}
