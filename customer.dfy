/** A client of a business, with the statistics its bookings accumulate. */
module Customers {
  import opened JavaLang
  import opened Names

  class Customer {
    var firstName: Option<string>
    var lastName: Option<string>
    var email: Option<string>
    var phoneNumber: Option<string>
    var dateOfBirth: Option<int>
    var gender: Option<string>
    var notes: Option<string>
    var preferences: Option<string>
    var totalBookings: Option<Int32>
    var totalNoShows: Option<Int32>
    var totalCancellations: Option<Int32>
    var loyaltyPoints: Option<Int32>
    var isVip: Option<bool>
    var allowMarketingEmails: Option<bool>
    var allowMarketingSms: Option<bool>
    var userId: Option<int>

    /** A new customer: every counter at zero, not VIP, marketing e-mail on and SMS off. */
    constructor (firstName: Option<string>, lastName: Option<string>, email: Option<string>)
      ensures this.firstName == firstName && this.lastName == lastName && this.email == email
      ensures totalBookings == Some(0) && totalNoShows == Some(0) && totalCancellations == Some(0) && loyaltyPoints == Some(0)
      ensures isVip == Some(false) && allowMarketingEmails == Some(true) && allowMarketingSms == Some(false)
      ensures phoneNumber == None && dateOfBirth == None && gender == None && notes == None && preferences == None && userId == None
    {
      this.firstName, this.lastName, this.email := firstName, lastName, email;
      phoneNumber, dateOfBirth, gender, notes, preferences, userId := None, None, None, None, None, None;
      totalBookings, totalNoShows, totalCancellations, loyaltyPoints := Some(0), Some(0), Some(0), Some(0);
      isVip, allowMarketingEmails, allowMarketingSms := Some(false), Some(true), Some(false);
    }

    /** "first last" when both names are known, else the first name, else the e-mail. */
    function FullName(): Option<string>
      reads this`firstName, this`lastName, this`email
    {
      if firstName.Some? && lastName.Some? then Some(firstName.value + " " + lastName.value)
      else if firstName.Some? then firstName
      else email
    }

    /** Adds one booking; an unset counter counts as 0 and `int` wraps at its maximum. */
    method IncrementBookings()
      modifies this`totalBookings
      ensures totalBookings.Some?
      ensures OrZero(old(totalBookings)) < INT_MAX ==> totalBookings.value == OrZero(old(totalBookings)) + 1
      ensures OrZero(old(totalBookings)) == INT_MAX ==> totalBookings.value == INT_MIN
    {
      totalBookings := Some(Wrap32(OrZero(totalBookings) + 1));
    }

    method IncrementNoShows()
      modifies this`totalNoShows
      ensures totalNoShows.Some?
      ensures OrZero(old(totalNoShows)) < INT_MAX ==> totalNoShows.value == OrZero(old(totalNoShows)) + 1
      ensures OrZero(old(totalNoShows)) == INT_MAX ==> totalNoShows.value == INT_MIN
    {
      totalNoShows := Some(Wrap32(OrZero(totalNoShows) + 1));
    }

    method IncrementCancellations()
      modifies this`totalCancellations
      ensures totalCancellations.Some?
      ensures OrZero(old(totalCancellations)) < INT_MAX ==> totalCancellations.value == OrZero(old(totalCancellations)) + 1
      ensures OrZero(old(totalCancellations)) == INT_MAX ==> totalCancellations.value == INT_MIN
    {
      totalCancellations := Some(Wrap32(OrZero(totalCancellations) + 1));
    }

    /** Adds `points` without a sign check, so a negative amount lowers the balance. */
    method AddLoyaltyPoints(points: Int32)
      modifies this`loyaltyPoints
      ensures loyaltyPoints.Some?
      ensures INT_MIN <= OrZero(old(loyaltyPoints)) + points <= INT_MAX ==> loyaltyPoints.value == OrZero(old(loyaltyPoints)) + points
      ensures points < 0 && OrZero(old(loyaltyPoints)) + points >= INT_MIN ==> loyaltyPoints.value < OrZero(old(loyaltyPoints))
      ensures (loyaltyPoints.value - (OrZero(old(loyaltyPoints)) + points)) % 0x1_0000_0000 == 0
    {
      loyaltyPoints := Some(Wrap32(OrZero(loyaltyPoints) + points));
    }
  }

  /** The full name falls back from "first last" to the first name to the e-mail,
      and "first last" gives both names back when the first has no space. */
  lemma FullNameCases(c: Customer)
    ensures c.firstName.Some? && c.lastName.Some? ==> c.FullName() == Some(c.firstName.value + " " + c.lastName.value)
    ensures c.firstName.Some? && c.lastName.Some? && ' ' !in c.firstName.value ==>
              c.FullName().Some? && SplitAtFirstSpace(c.FullName().value) == (c.firstName.value, c.lastName.value)
    ensures c.firstName.Some? && c.lastName.None? ==> c.FullName() == c.firstName
    ensures c.firstName.None? ==> c.FullName() == c.email
  {
    if c.firstName.Some? && c.lastName.Some? && ' ' !in c.firstName.value {
      SplitJoined(c.firstName.value, c.lastName.value);
    }
  }
}
