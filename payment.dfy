/** A payment for a booking. Money is in cents. */
module Payments {
  import opened JavaLang
  import opened PaymentStatuses

  class Payment {
    var amount: Option<int>
    var currency: Option<string>
    var status: PaymentStatus
    var paymentMethod: Option<string>
    var stripePaymentIntentId: Option<string>
    var stripePaymentMethodId: Option<string>
    var stripeChargeId: Option<string>
    var transactionId: Option<string>
    var paidAt: Option<int>
    var refundedAt: Option<int>
    var refundAmount: Option<int>
    var refundReason: Option<string>
    var notes: Option<string>
    var errorMessage: Option<string>
    var bookingId: Option<int>

    /** A new payment is PENDING, in euros, with no outcome recorded. */
    constructor (amount: Option<int>, bookingId: Option<int>)
      ensures this.amount == amount && this.bookingId == bookingId
      ensures status == PENDING && currency == Some("EUR")
      ensures paidAt == None && refundedAt == None && refundAmount == None && refundReason == None && errorMessage == None
      ensures paymentMethod == None && stripePaymentIntentId == None && stripePaymentMethodId == None && stripeChargeId == None && transactionId == None && notes == None
    {
      this.amount, this.bookingId := amount, bookingId;
      status, currency := PENDING, Some("EUR");
      paidAt, refundedAt, refundAmount, refundReason, errorMessage := None, None, None, None, None;
      paymentMethod, stripePaymentIntentId, stripePaymentMethodId := None, None, None;
      stripeChargeId, transactionId, notes := None, None, None;
    }

    /** Marks the payment collected, from whatever status; an earlier error message stays. */
    method MarkAsPaid(now: int)
      modifies this`status, this`paidAt
      ensures status == COMPLETED && paidAt == Some(now)
      ensures errorMessage == old(errorMessage)
    {
      status := COMPLETED;
      paidAt := Some(now);
    }

    /** Marks the payment failed, from whatever status; an earlier payment stamp stays. */
    method MarkAsFailed(error: Option<string>)
      modifies this`status, this`errorMessage
      ensures status == FAILED && errorMessage == error
      ensures paidAt == old(paidAt)
    {
      status := FAILED;
      errorMessage := error;
    }

    /** Records a refund of `amount`, which is not compared with the amount paid. */
    method Refund(amount: Option<int>, reason: Option<string>, now: int)
      modifies this`status, this`refundAmount, this`refundReason, this`refundedAt
      ensures status == REFUNDED && refundAmount == amount && refundReason == reason && refundedAt == Some(now)
      ensures this.amount == old(this.amount) && paidAt == old(paidAt)
    {
      status := REFUNDED;
      refundAmount := amount;
      refundReason := reason;
      refundedAt := Some(now);
    }
  }

  /** Nothing bounds a refund or orders the transitions: a payment can be
      refunded for more than it was worth, then marked paid again. */
  method OverRefundThenPaid(now: int) returns (p: Payment)
    ensures p.refundAmount == Some(5000) && p.amount == Some(1000)
    ensures p.status == COMPLETED && p.refundedAt == Some(now) && p.paidAt == Some(now + 1)
  {
    p := new Payment(Some(1000), Some(1));
    p.Refund(Some(5000), Some("goodwill"), now);
    p.MarkAsPaid(now + 1);
  }
}
