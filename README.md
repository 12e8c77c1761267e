# SlotSync booking entities — a Dafny model

SlotSync is a multi-tenant appointment-booking backend: businesses offer
services performed by professionals, and customers book time with them.
This project models the behaviour that lives on its entity classes and the
hand-written booking queries of its repository:

- **Booking** (`Bookings.Booking`): the booked interval, the cancellation-notice
  check, the past / in-progress predicates and the lifecycle setters
  `confirm`, `cancel`, `complete`, `markAsNoShow` and `addReview`. The setters
  apply no guard on the prior status, and the model keeps it that way.
- **Availability rules** (`Availability.AvailabilityRule`): a recurring rule
  matches a weekday, a one-off rule matches one date.
- **Booking queries** (`BookingQueries`): six of the repository's seven JPQL
  queries (four listings and two counts; the revenue sum is floating point), evaluated over a snapshot `seq<BookingRow>` of the bookings table,
  with SQL's NULL semantics and `ORDER BY startTime ASC`.
- **Audit and soft delete** (`Audit.BaseEntity`): deletion and active flags,
  creation and update stamps.
- **Customer** counters and display name, **Service** total duration,
  **Business** plan ordering, URL and policy defaults, **Payment** status
  setters, **Subscription** status predicates, **User** role checks, name and
  last-login stamp.

Conventions:

- Time points are whole minutes since 1970-01-01T00:00; dates are days since
  1970-01-01, so a date's weekday is `(d + 3) % 7` counting from Monday = 0.
  Every read of the clock (`LocalDateTime.now()`, `CURRENT_DATE`,
  `CURRENT_TIMESTAMP`) is a parameter `now` or `today`.
- A Java reference that may be null is an `Option`. An expression that
  unboxes or dereferences a null field returns `Outcome.ThrowsNullPointer`.
- Java `int` arithmetic wraps: counters and sums use `Int32` and `Wrap32`.
  String concatenation renders null as `"null"` (`Render`).
- Money is integer cents. Relations are ids.
- Objects whose methods assign fields (Booking, BaseEntity, Customer, Payment,
  User) are classes. Each mutator's `modifies` clause names exactly the fields
  it assigns, so every other field is unchanged. Entities with only read
  logic (Business, Service, Subscription, availability rules) are datatypes.
- Dafny classes cannot inherit without traits. So a Booking holds its
  `BaseEntity` part as `audit`, and `Booking.Row()` is the row the
  repository sees.

What the code does, and the model keeps:

- The lifecycle setters of Booking and Payment check nothing about the
  current status. A cancelled booking can be confirmed again
  (`Bookings.ConfirmAfterCancel`), and a refunded payment can be marked paid
  (`Payments.OverRefundThenPaid`).
- The range queries exclude only CANCELLED and NO_SHOW. So COMPLETED,
  IN_PROGRESS and RESCHEDULED bookings are returned.
- No source file contains slot generation, interval arithmetic, buffer
  expansion or a reservation commit, so none is modelled.

## Model

| member | source | states |
|---|---|---|
| `Bookings.Booking.constructor` | src/main/java/com/slotsync/entity/Booking.java:44 | a new booking is PENDING with every optional field null and an active, undeleted audit part |
| `Bookings.Booking.DurationMinutes` | src/main/java/com/slotsync/entity/Booking.java:128-133 | with both ends set, start + duration = end, so the duration may be negative; otherwise 0 |
| `Bookings.IsCancellableCases` | src/main/java/com/slotsync/entity/Booking.java:139-145 | COMPLETED/CANCELLED are never cancellable; every other status, NO_SHOW and RESCHEDULED included, is cancellable iff now + 60·h < start; a null start throws |
| `Bookings.PastExcludesActive` | src/main/java/com/slotsync/entity/Booking.java:151-163 | a booking is never both past (end < now) and in progress (start < now < end) |
| `Bookings.ActiveHasPositiveDuration` | src/main/java/com/slotsync/entity/Booking.java:128-163 | a booking in progress has a duration of at least two minutes |
| `Bookings.Booking.Confirm` | src/main/java/com/slotsync/entity/Booking.java:168-171 | from any status: CONFIRMED, confirmedAt = now, no other field and no other column of the row changes |
| `Bookings.Booking.Cancel` | src/main/java/com/slotsync/entity/Booking.java:176-181 | from any status: CANCELLED with stamp, reason and user; afterwards not cancellable for any notice and any instant; the row changes only in status |
| `Bookings.Booking.Complete` | src/main/java/com/slotsync/entity/Booking.java:186-190 | COMPLETED, completedAt = now, client showed up; afterwards never cancellable; the row changes only in status |
| `Bookings.Booking.MarkAsNoShow` | src/main/java/com/slotsync/entity/Booking.java:195-199 | NO_SHOW, completedAt = now, client did not show up; nothing else changes |
| `Bookings.Booking.AddReview` | src/main/java/com/slotsync/entity/Booking.java:204-208 | stores rating and review as given (no range check) with reviewedAt = now; the row is unchanged |
| `Bookings.Booking.SoftDelete` | src/main/java/com/slotsync/entity/BaseEntity.java:44-47 | the inherited soft delete changes only the deletion columns of the booking's row |
| `Bookings.ConfirmAfterCancel` | src/main/java/com/slotsync/entity/Booking.java:168-181 | no transition guard: a cancelled booking can be confirmed again and keeps its cancellation stamp |
| `Availability.NewRule` | src/main/java/com/slotsync/entity/ProfessionalAvailability.java:38-42 | a new rule is available and recurring |
| `Availability.OneOffAppliesOnlyToItsDate` | src/main/java/com/slotsync/entity/ProfessionalAvailability.java:56-57 | a one-off rule with a date applies to that date and to no other |
| `Availability.RecurringIsWeekly` | src/main/java/com/slotsync/entity/ProfessionalAvailability.java:59-60 | a recurring rule with a weekday applies to d iff it applies to d + 7 |
| `Availability.RecurringOncePerWeek` | src/main/java/com/slotsync/entity/ProfessionalAvailability.java:59-60 | a recurring rule with a weekday applies to exactly one of any seven consecutive dates |
| `Availability.IncompleteRulesNeverApply` | src/main/java/com/slotsync/entity/ProfessionalAvailability.java:55-63 | recurring without weekday or one-off without date applies to no date; a null recurring flag throws |
| `Availability.EachKindIgnoresTheOtherField` | src/main/java/com/slotsync/entity/ProfessionalAvailability.java:56-61 | a recurring rule ignores specificDate, a one-off rule ignores dayOfWeek |
| `Availability.AppliesIgnoresOpeningAndHours` | src/main/java/com/slotsync/entity/ProfessionalAvailability.java:55-63 | the result does not depend on isAvailable or the hours, so a closed rule still applies |
| `Time.DayOfWeekOf` | src/main/java/com/slotsync/entity/ProfessionalAvailability.java:60 | the weekday of epoch day d has index (d + 3) mod 7 |
| `Time.WeekdayOncePerWeek` | src/main/java/com/slotsync/entity/ProfessionalAvailability.java:60 | each weekday occurs exactly once in any seven consecutive dates |
| `Time.DateOfIsDayRange` | src/main/java/com/slotsync/repository/BookingRepository.java:41 | a time point's date is d iff it lies between d's 00:00 and 23:59 inclusive |
| `BookingQueries.Where` | src/main/java/com/slotsync/repository/BookingRepository.java:31-54 | a WHERE clause: exactly the rows satisfying the filter, each with its multiplicity in the table |
| `BookingQueries.CountWhere` | src/main/java/com/slotsync/repository/BookingRepository.java:56-61 | COUNT equals the size of the filtered rows |
| `BookingQueries.SortByStart` | src/main/java/com/slotsync/repository/BookingRepository.java:43 | ORDER BY startTime ASC: ascending and a permutation of its input |
| `BookingQueries.FindByBusinessIdAndStatus` | src/main/java/com/slotsync/repository/BookingRepository.java:28-29 | exactly the business's rows in the given status, any status, with multiplicity and in table order |
| `BookingQueries.FindProfessionalBookingsInRange` | src/main/java/com/slotsync/repository/BookingRepository.java:31-38 | exactly the professional's rows with start in [from, to] inclusive and status neither CANCELLED nor NO_SHOW, with multiplicity |
| `BookingQueries.FindTodayBookingsByBusiness` | src/main/java/com/slotsync/repository/BookingRepository.java:40-44 | exactly the business's listed rows starting on today's date, ascending by start |
| `BookingQueries.FindBookingsByBusinessAndDateRange` | src/main/java/com/slotsync/repository/BookingRepository.java:46-54 | exactly the business's listed rows with start in [from, to] inclusive, ascending by start |
| `BookingQueries.CountUpcomingBookingsByBusiness` | src/main/java/com/slotsync/repository/BookingRepository.java:56-58 | the count is at most the table size and zero iff no row of the business is CONFIRMED with start ≥ now |
| `BookingQueries.CountNoShowsByCustomer` | src/main/java/com/slotsync/repository/BookingRepository.java:60-61 | the count is at most the table size and zero iff the customer has no NO_SHOW row |
| `BookingQueries.UpcomingCountsConfirmedListing` | src/main/java/com/slotsync/repository/BookingRepository.java:28-58 | the upcoming count equals the number of rows in the business's CONFIRMED status listing that start at or after now |
| `BookingQueries.CountWhereReplace` | src/main/java/com/slotsync/repository/BookingRepository.java:56-61 | replacing one row changes a count by exactly the two rows' contributions |
| `BookingQueries.NoShowCountsOnce` | src/main/java/com/slotsync/repository/BookingRepository.java:60-61 | marking one of the customer's bookings NO_SHOW raises their no-show count by exactly one |
| `BookingQueries.UpcomingCountFollowsConfirmation` | src/main/java/com/slotsync/repository/BookingRepository.java:56-58 | confirming a future booking raises the upcoming count by one; cancelling a confirmed one lowers it by one |
| `BookingQueries.SoftDeleteKeepsCounts` | src/main/java/com/slotsync/repository/BookingRepository.java:56-61 | soft-deleting a row changes neither count |
| `BookingQueries.SoftDeleteKeepsListings` | src/main/java/com/slotsync/repository/BookingRepository.java:31-54 | a soft-deleted row is listed by each query exactly when it was before |
| `BookingQueries.TodayIsDayRange` | src/main/java/com/slotsync/repository/BookingRepository.java:40-54 | today's listing equals the date-range listing from today 00:00 to 23:59 |
| `Audit.BaseEntity.constructor` | src/main/java/com/slotsync/entity/BaseEntity.java:39 | a new entity is active and not deleted |
| `Audit.BaseEntity.SoftDelete` | src/main/java/com/slotsync/entity/BaseEntity.java:44-47 | deletedAt = now, inactive, so deleted; nothing else changes |
| `Audit.BaseEntity.Restore` | src/main/java/com/slotsync/entity/BaseEntity.java:52-55 | deletedAt cleared, active, so not deleted; nothing else changes |
| `Audit.BaseEntity.OnCreate` | src/main/java/com/slotsync/entity/BaseEntity.java:65-72 | sets createdAt and isActive only where null, preserving an explicit false; a second call changes nothing |
| `Audit.BaseEntity.OnUpdate` | src/main/java/com/slotsync/entity/BaseEntity.java:75-77 | updatedAt = now and nothing else changes |
| `Audit.SoftDeleteThenRestore` | src/main/java/com/slotsync/entity/BaseEntity.java:44-62 | restore after soft delete gives a live, active entity with its stamps intact |
| `Audit.OnCreateIdempotent` | src/main/java/com/slotsync/entity/BaseEntity.java:65-72 | after two pre-persist calls, createdAt and isActive hold what the first call left, and id, updatedAt and deletedAt are unchanged |
| `Customers.Customer.constructor` | src/main/java/com/slotsync/entity/Customer.java:49-68 | counters start at 0, not VIP, marketing e-mail on, SMS off |
| `Customers.Customer.IncrementBookings` | src/main/java/com/slotsync/entity/Customer.java:93-95 | null reads as 0; old + 1, wrapping to INT_MIN at INT_MAX; other counters unchanged |
| `Customers.Customer.IncrementNoShows` | src/main/java/com/slotsync/entity/Customer.java:100-102 | the same for the no-show counter alone |
| `Customers.Customer.IncrementCancellations` | src/main/java/com/slotsync/entity/Customer.java:107-109 | the same for the cancellation counter alone |
| `Customers.Customer.AddLoyaltyPoints` | src/main/java/com/slotsync/entity/Customer.java:123-125 | null reads as 0; old + p modulo 2^32, so a negative p lowers the balance |
| `Customers.FullNameCases` | src/main/java/com/slotsync/entity/Customer.java:83-88 | both names set: exactly first + " " + last, which splits back into the two names when the first has no space; else the first name; else the e-mail |
| `Names.SplitJoined` | src/main/java/com/slotsync/entity/User.java:96-98 | "first last" splits back into first and last when first has no space |
| `Services.NewService` | src/main/java/com/slotsync/entity/Service.java:54-76 | zero buffers, one concurrent booking, not featured, display order 0, default colour, no deposit |
| `Services.TotalDurationIsSum` | src/main/java/com/slotsync/entity/Service.java:94-96 | whenever the final sum fits in an `int`, the total is duration + bufferTimeBefore + bufferTimeAfter, even if the first addition overflowed |
| `Services.DefaultTotalIsDuration` | src/main/java/com/slotsync/entity/Service.java:66-70 | with the default buffers the total equals the duration |
| `Services.TotalCoversDuration` | src/main/java/com/slotsync/entity/Service.java:43-45 | if the duration is positive, the buffers are non-negative and the sum fits in an `int`, then total ≥ duration > 0 |
| `Services.TotalDurationWraps` | src/main/java/com/slotsync/entity/Service.java:94-96 | int addition wraps: INT_MAX plus one minute of buffer gives INT_MIN |
| `Businesses.NewBusiness` | src/main/java/com/slotsync/entity/Business.java:73-122 | the initialised defaults: Europe/Madrid, EUR, es, colour #6366f1, 90 days max advance, 2 hours min advance, 30-minute slots, 24 hours cancellation notice, customer cancellation on, no upfront payment, 0% deposit, e-mail on, SMS off, 24-hour reminders, widget and public booking on |
| `Businesses.PublicBookingUrlNamesSlug` | src/main/java/com/slotsync/entity/Business.java:158-160 | the URL is the fixed prefix followed by the slug, which is recovered from it |
| `Businesses.IsPlanAllowedIffOrdinal` | src/main/java/com/slotsync/entity/Business.java:166-170 | allowed iff ordinal(current) ≥ ordinal(required); a null plan throws |
| `Businesses.PlanAllowanceOrder` | src/main/java/com/slotsync/entity/Business.java:166-170 | reflexive, STARTER always allowed, ENTERPRISE allows all, closed downward |
| `Businesses.EveryPlanIsPaid` | src/main/java/com/slotsync/entity/Business.java:176-178 | paid iff a plan is set, whichever plan it is |
| `Payments.Payment.constructor` | src/main/java/com/slotsync/entity/Payment.java:30-34 | a new payment is PENDING in EUR, with no method, Stripe ids, outcome or refund recorded |
| `Payments.Payment.MarkAsPaid` | src/main/java/com/slotsync/entity/Payment.java:73-76 | from any status: COMPLETED, paidAt = now, errorMessage untouched |
| `Payments.Payment.MarkAsFailed` | src/main/java/com/slotsync/entity/Payment.java:78-81 | FAILED with the error, paidAt untouched |
| `Payments.Payment.Refund` | src/main/java/com/slotsync/entity/Payment.java:83-88 | REFUNDED with amount, reason and stamp; the paid amount unchanged and not compared |
| `Payments.OverRefundThenPaid` | src/main/java/com/slotsync/entity/Payment.java:73-88 | a refund may exceed the amount, and a refunded payment can be marked paid again |
| `Subscriptions.NewSubscription` | src/main/java/com/slotsync/entity/Subscription.java:41-60 | monthly, EUR, not cancelling at period end, and inactive until a status is set |
| `Subscriptions.IsActiveStatuses` | src/main/java/com/slotsync/entity/Subscription.java:70-72 | active for "active" and "trialing", inactive for any other text or null |
| `Subscriptions.TrialAndActive` | src/main/java/com/slotsync/entity/Subscription.java:70-79 | in trial implies active; a trialing subscription whose trial ended, or has no end, stays active but is not in trial |
| `Users.User.constructor` | src/main/java/com/slotsync/entity/User.java:58-62 | e-mail and phone start unverified |
| `Users.FullNameSplits` | src/main/java/com/slotsync/entity/User.java:96-98 | the full name is first + " " + last with an unset name rendered "null"; it splits back into the two names when the first has no space |
| `Users.RoleChecks` | src/main/java/com/slotsync/entity/User.java:104-114 | business admin iff owner or admin; super admin iff SUPER_ADMIN; never both; professionals and customers neither |
| `Users.User.UpdateLastLogin` | src/main/java/com/slotsync/entity/User.java:119-121 | lastLoginAt = now and nothing else changes |

## Left out

- Construction through Lombok's `@Builder`: without `@Builder.Default`, the builder ignores field initialisers, so a built Booking has a null status and a built Customer has null counters. The model constructs entities the way the no-argument constructor does, and the counter methods model the null-as-zero fallback.
- Null arguments: the model takes `minHoursBefore`, `date`, `points` and `requiredPlan` as values, so a null argument is not modelled. Null fields are modelled. In the source, a null argument behaves as follows:
  - `isCancellable(null)` still returns false for COMPLETED and CANCELLED bookings, and throws a NullPointerException otherwise.
  - `appliesTo(null)` returns false for a one-off rule and for an incomplete rule, and throws only for a recurring rule with a weekday.
  - `addLoyaltyPoints(null)` and `isPlanAllowed(null)` throw.
- Sub-minute precision: java.time keeps seconds and nanoseconds. The model counts whole minutes, so `Duration.toMinutes` truncation does not arise and the day range ends at 23:59.
- Bookings.ActiveHasPositiveDuration: it holds only because times are whole minutes. With java.time, a 30-second booking can be in progress while `getDurationMinutes()` returns 0.
- Date-time range overflow (`DateTimeException`) and database time zones are not modelled; `now`/`today` are inputs.
- Row order: `findProfessionalBookingsInRange` has no ORDER BY, and the model returns table order. For the sorted queries, SQL leaves the order of equal start times open; the model keeps table order.
- Lombok getters and setters, JPA mapping, lazy relations and back-collections are not modelled. Relations are ids; the Booking–Payment link is not modelled.
- Spring's auditing listener is not modelled. `@EnableJpaAuditing`, together with `@CreatedDate` and `@LastModifiedDate` on BaseEntity, also stamps createdAt and updatedAt. So the "never overwrites" property of `Audit.BaseEntity.OnCreate` is a property of the `@PrePersist` method alone.
- Business fields that have no initialiser and that no operation reads are not modelled: logo and cover image URLs, phone number, website, and the Stripe customer and subscription ids.
- BaseEntity state is composed only into Booking, whose rows the queries read. The other entities share the same class, which is not repeated in each.
- Bean-validation annotations (`@NotNull`, `@Positive`) are not enforced. Where a property depends on them, it is a lemma precondition (`TotalCoversDuration`).
- The Spring Data derived queries (`findByX`, `countByX`, `existsByX`) are generated from method names and carry no visible logic.
- Floating point: `calculateMonthlyRevenue`, `Customer.getNoShowRate`, `Professional.updateRating` and Location coordinates.
- `Service.getFormattedPrice` and `Location.getFullAddress` are calls into `String.format`.
- The security adapter, the authentication DTO and the application bootstrap.
