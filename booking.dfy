/**
 * A reservation: its time interval, its lifecycle status with the stamps
 * each transition leaves, and its review. Time points are epoch minutes.
 */
module Bookings {
  import opened JavaLang
  import opened BookingStatuses
  import opened Time
  import opened Audit

  /**
   * The columns of a persisted booking that the repository's queries read.
   * Relations are stored as the referenced row's id; SQL NULL is `None`.
   */
  datatype BookingRow = BookingRow(
    businessId: Option<int>,
    customerId: Option<int>,
    professionalId: Option<int>,
    startTime: Option<int>,
    endTime: Option<int>,
    status: BookingStatus,
    deletedAt: Option<int>,
    isActive: Option<bool>)

  class Booking {
    /** The inherited audit and soft-delete state. */
    const audit: BaseEntity

    var bookingCode: Option<string>
    var startTime: Option<int>
    var endTime: Option<int>
    var status: BookingStatus
    // Money in cents.
    var price: Option<int>
    var depositAmount: Option<int>
    var totalAmount: Option<int>
    var discountAmount: Option<int>
    var discountCode: Option<string>
    var notes: Option<string>
    var internalNotes: Option<string>
    var cancellationReason: Option<string>
    var cancelledAt: Option<int>
    var cancelledByUserId: Option<int>
    var confirmedAt: Option<int>
    var completedAt: Option<int>
    var reminderSentAt: Option<int>
    var confirmationSentAt: Option<int>
    var clientShowedUp: Option<bool>
    var rating: Option<Int32>
    var review: Option<string>
    var reviewedAt: Option<int>
    // Relations, by id.
    var businessId: Option<int>
    var customerId: Option<int>
    var professionalId: Option<int>
    var serviceId: Option<int>
    var locationId: Option<int>

    /**
     * A new booking with its required columns set. Every other field is
     * null, except the status, which starts PENDING, and the inherited
     * active flag.
     */
    constructor (code: Option<string>, startTime: Option<int>, endTime: Option<int>,
                 businessId: Option<int>, customerId: Option<int>, professionalId: Option<int>, serviceId: Option<int>)
      ensures status == PENDING
      ensures this.bookingCode == code && this.startTime == startTime && this.endTime == endTime
      ensures this.businessId == businessId && this.customerId == customerId
      ensures this.professionalId == professionalId && this.serviceId == serviceId && locationId == None
      ensures price == None && depositAmount == None && totalAmount == None && discountAmount == None
      ensures discountCode == None && notes == None && internalNotes == None
      ensures cancellationReason == None && cancelledAt == None && cancelledByUserId == None
      ensures confirmedAt == None && completedAt == None && reminderSentAt == None && confirmationSentAt == None
      ensures clientShowedUp == None && rating == None && review == None && reviewedAt == None
      ensures fresh(audit) && audit.isActive == Some(true) && !audit.IsDeleted()
    {
      audit := new BaseEntity();
      bookingCode, this.startTime, this.endTime := code, startTime, endTime;
      status := PENDING;
      price, depositAmount, totalAmount, discountAmount := None, None, None, None;
      discountCode, notes, internalNotes := None, None, None;
      cancellationReason, cancelledAt, cancelledByUserId := None, None, None;
      confirmedAt, completedAt, reminderSentAt, confirmationSentAt := None, None, None, None;
      clientShowedUp, rating, review, reviewedAt := None, None, None, None;
      this.businessId, this.customerId := businessId, customerId;
      this.professionalId, this.serviceId, locationId := professionalId, serviceId, None;
    }

    /** The row the repository sees for this booking. */
    function Row(): BookingRow
      reads this, audit
    {
      BookingRow(businessId, customerId, professionalId, startTime, endTime, status, audit.deletedAt, audit.isActive)
    }

    /** Length of the booked interval in minutes; 0 when either end is unset. No
        check that the end follows the start, so the result may be negative. */
    function DurationMinutes(): (m: int)
      reads this`startTime, this`endTime
      ensures startTime.Some? && endTime.Some? ==> startTime.value + m == endTime.value
      ensures startTime.None? || endTime.None? ==> m == 0
    {
      if startTime.Some? && endTime.Some? then endTime.value - startTime.value else 0
    }

    /** Whether the booking may still be cancelled at `now` with `minHoursBefore` hours of notice. */
    function IsCancellable(minHoursBefore: Int32, now: int): Outcome<bool>
      reads this`status, this`startTime
    {
      if status == COMPLETED || status == CANCELLED then Returns(false)
      else if startTime.None? then ThrowsNullPointer  // startTime.minusHours on null
      else Returns(now < startTime.value - minHoursBefore * MINUTES_PER_HOUR)
    }

    predicate IsPast(now: int)
      reads this`endTime
    {
      endTime.Some? && endTime.value < now
    }

    /** In progress: strictly after the start and strictly before the end. */
    predicate IsActive(now: int)
      reads this`startTime, this`endTime
    {
      startTime.Some? && endTime.Some? && startTime.value < now && now < endTime.value
    }

    /** Confirms from whatever status the booking is in. */
    method Confirm(now: int)
      modifies this`status, this`confirmedAt
      ensures status == CONFIRMED && confirmedAt == Some(now)
      ensures Row() == old(Row()).(status := CONFIRMED)
    {
      status := CONFIRMED;
      confirmedAt := Some(now);
    }

    /** Cancels from whatever status the booking is in; afterwards no notice
        period and no instant makes it cancellable. */
    method Cancel(reason: Option<string>, userId: Option<int>, now: int)
      modifies this`status, this`cancelledAt, this`cancellationReason, this`cancelledByUserId
      ensures status == CANCELLED && cancelledAt == Some(now)
      ensures cancellationReason == reason && cancelledByUserId == userId
      ensures forall h: Int32, t: int :: IsCancellable(h, t) == Returns(false)
      ensures Row() == old(Row()).(status := CANCELLED)
    {
      status := CANCELLED;
      cancelledAt := Some(now);
      cancellationReason := reason;
      cancelledByUserId := userId;
    }

    method Complete(now: int)
      modifies this`status, this`completedAt, this`clientShowedUp
      ensures status == COMPLETED && completedAt == Some(now) && clientShowedUp == Some(true)
      ensures forall h: Int32, t: int :: IsCancellable(h, t) == Returns(false)
      ensures Row() == old(Row()).(status := COMPLETED)
    {
      status := COMPLETED;
      completedAt := Some(now);
      clientShowedUp := Some(true);
    }

    method MarkAsNoShow(now: int)
      modifies this`status, this`completedAt, this`clientShowedUp
      ensures status == NO_SHOW && completedAt == Some(now) && clientShowedUp == Some(false)
      ensures Row() == old(Row()).(status := NO_SHOW)
    {
      status := NO_SHOW;
      clientShowedUp := Some(false);
      completedAt := Some(now);
    }

    /** Records the customer's review; the rating is stored without a range check. */
    method AddReview(rating: Option<Int32>, review: Option<string>, now: int)
      modifies this`rating, this`review, this`reviewedAt
      ensures this.rating == rating && this.review == review && reviewedAt == Some(now)
      ensures Row() == old(Row())
    {
      this.rating := rating;
      this.review := review;
      reviewedAt := Some(now);
    }

    /** The inherited soft delete, as the repository sees it. */
    method SoftDelete(now: int)
      modifies audit`deletedAt, audit`isActive
      ensures audit.IsDeleted()
      ensures Row() == old(Row()).(deletedAt := Some(now), isActive := Some(false))
    {
      audit.SoftDelete(now);
    }
  }

  /** Terminal statuses COMPLETED and CANCELLED are never cancellable; every other
      status, NO_SHOW and RESCHEDULED included, is cancellable exactly while
      `now` is strictly before the start minus the notice; without a start time
      the check throws. */
  lemma IsCancellableCases(b: Booking, h: Int32, now: int)
    ensures b.status == COMPLETED || b.status == CANCELLED ==> b.IsCancellable(h, now) == Returns(false)
    ensures b.status != COMPLETED && b.status != CANCELLED && b.startTime.None? ==> b.IsCancellable(h, now).ThrowsNullPointer?
    ensures b.status != COMPLETED && b.status != CANCELLED && b.startTime.Some? ==>
              (b.IsCancellable(h, now) == Returns(true) <==> now + 60 * h < b.startTime.value)
  {
  }

  /** A booking is never both finished and in progress. */
  lemma PastExcludesActive(b: Booking, now: int)
    ensures !(b.IsPast(now) && b.IsActive(now))
  {
  }

  /** A booking in progress has a start strictly before its end, so a positive duration. */
  lemma ActiveHasPositiveDuration(b: Booking, now: int)
    requires b.IsActive(now)
    ensures b.DurationMinutes() >= 2
  {
  }

  /** The lifecycle setters apply no guard: a cancelled booking can be confirmed
      again, and it keeps its cancellation stamp and reason. */
  method ConfirmAfterCancel(start: int, now: int) returns (b: Booking)
    ensures b.status == CONFIRMED && b.confirmedAt == Some(now + 1)
    ensures b.cancelledAt == Some(now) && b.cancellationReason == Some("client request")
    ensures b.IsCancellable(0, now) == Returns(now < start)
  {
    b := new Booking(Some("BK1"), Some(start), Some(start + 30), Some(1), Some(2), Some(3), Some(4));
    b.Cancel(Some("client request"), Some(7), now);
    b.Confirm(now + 1);
  }
}
