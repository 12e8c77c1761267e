/** A service a business offers: its length in minutes and the preparation
    and clean-up buffers around it. Money is in cents. */
module Services {
  import opened JavaLang

  datatype Service = Service(
    name: Option<string>,
    description: Option<string>,
    price: Option<int>,
    duration: Option<Int32>,
    category: Option<string>,
    imageUrl: Option<string>,
    isFeatured: Option<bool>,
    displayOrder: Option<Int32>,
    colorHex: Option<string>,
    maxConcurrentBookings: Option<Int32>,
    bufferTimeBefore: Option<Int32>,
    bufferTimeAfter: Option<Int32>,
    requiresDeposit: Option<bool>,
    depositAmount: Option<int>,
    businessId: Option<int>)
  {
    /** Duration plus both buffers, added left to right in Java `int`
        arithmetic; any unset operand throws when it is unboxed. */
    function TotalDuration(): Outcome<Int32> {
      if duration.None? || bufferTimeBefore.None? || bufferTimeAfter.None? then ThrowsNullPointer
      else Returns(Wrap32(Wrap32(duration.value + bufferTimeBefore.value) + bufferTimeAfter.value))
    }
  }

  /** A new service: no buffers, one booking at a time, not featured, first in
      display order, default colour, no deposit required. */
  function NewService(name: Option<string>, price: Option<int>, duration: Option<Int32>, businessId: Option<int>): (s: Service)
    ensures s.name == name && s.price == price && s.duration == duration && s.businessId == businessId
    ensures s.bufferTimeBefore == Some(0) && s.bufferTimeAfter == Some(0)
    ensures s.maxConcurrentBookings == Some(1)
    ensures s.isFeatured == Some(false) && s.displayOrder == Some(0) && s.colorHex == Some("#6366f1")
    ensures s.requiresDeposit == Some(false) && s.depositAmount == None
  {
    Service(name, None, price, duration, None, None, Some(false), Some(0), Some("#6366f1"), Some(1), Some(0), Some(0), Some(false), None, businessId)
  }

  /** Whenever the final sum fits an `int`, the total is the plain sum of duration
      and buffers, even if the first addition overflowed. */
  lemma TotalDurationIsSum(s: Service)
    requires s.duration.Some? && s.bufferTimeBefore.Some? && s.bufferTimeAfter.Some?
    requires s.duration.value + s.bufferTimeBefore.value + s.bufferTimeAfter.value <= INT_MAX
    requires s.duration.value + s.bufferTimeBefore.value + s.bufferTimeAfter.value >= INT_MIN
    ensures s.TotalDuration() == Returns(s.duration.value + s.bufferTimeBefore.value + s.bufferTimeAfter.value)
  {
    Wrap32OfWrapped(s.duration.value + s.bufferTimeBefore.value, s.bufferTimeAfter.value);
  }

  /** With the default zero buffers, the total is the duration itself. */
  lemma DefaultTotalIsDuration(name: Option<string>, price: Option<int>, duration: Int32, businessId: Option<int>)
    ensures NewService(name, price, Some(duration), businessId).TotalDuration() == Returns(duration)
  {
  }

  /** A valid service (positive duration) with non-negative buffers whose sum
      fits an `int` occupies at least its own duration. */
  lemma TotalCoversDuration(s: Service)
    requires s.duration.Some? && s.bufferTimeBefore.Some? && s.bufferTimeAfter.Some?
    requires s.duration.value > 0 && s.bufferTimeBefore.value >= 0 && s.bufferTimeAfter.value >= 0
    requires s.duration.value + s.bufferTimeBefore.value + s.bufferTimeAfter.value <= INT_MAX
    ensures s.TotalDuration().Returns? && s.TotalDuration().value >= s.duration.value > 0
  {
    TotalDurationIsSum(s);
  }

  /** Buffers large enough to leave the `int` range wrap the total to a negative number. */
  lemma TotalDurationWraps(s: Service)
    requires s.duration == Some(INT_MAX) && s.bufferTimeBefore == Some(1) && s.bufferTimeAfter == Some(0)
    ensures s.TotalDuration() == Returns(INT_MIN)
  {
  }
}
