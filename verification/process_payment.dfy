/** The payment page: the order id and amount read from the query, the checks made on them,
    and the success view shown once the payment form reports success. */
module ProcessPayment {
  import opened Common
  import opened Text
  import opened Routes

  /** `OrderDetailsForPayment`; the amount is the number `Number()` read. */
  datatype OrderDetails = OrderDetails(orderId: string, amount: real)

  /** What the query check decides: the details to pay, or the message shown instead. */
  datatype ParamCheck = Accepted(details: OrderDetails) | Rejected(message: string)

  const InvalidDetails := "Invalid payment details"
  const InvalidAmount := "Invalid amount specified"

  /** The effect's checks on the `orderid` and `amount` query parameters, in order: both present
      and non-empty, then an amount that is a number. */
  function CheckPaymentParams(orderId: Option<string>, amount: Option<string>): (r: ParamCheck)
    ensures r == Rejected(InvalidDetails) <==>
      orderId.None? || orderId.value == "" || amount.None? || amount.value == ""
    ensures r == Rejected(InvalidAmount) <==>
      orderId.Some? && orderId.value != "" && amount.Some? && amount.value != "" && ParseNumber(amount.value).None?
    ensures r.Accepted? ==>
      r.details.orderId == orderId.value && ParseNumber(amount.value) == Some(r.details.amount)
  {
    if orderId.None? || orderId.value == "" || amount.None? || amount.value == "" then Rejected(InvalidDetails)
    else match ParseNumber(amount.value)
      case None => Rejected(InvalidAmount)
      case Some(x) => Accepted(OrderDetails(orderId.value, x))
  }

  /** An amount printed from cents with `toString` is accepted, with that value. */
  lemma CentsAmountAccepted(orderId: string, cents: int)
    requires orderId != ""
    ensures CheckPaymentParams(Some(orderId), Some(CentsText(cents)))
         == Accepted(OrderDetails(orderId, cents as real / 100.0))
  {
    CentsRoundTrip(cents);
  }

  /** An amount with no whole part is a number: ".5" is accepted as one half. */
  lemma LeadingDotAmountAccepted(orderId: string)
    requires orderId != ""
    ensures CheckPaymentParams(Some(orderId), Some(".5")) == Accepted(OrderDetails(orderId, 0.5))
  {
    FractionOnly("5");
    assert "." + "5" == ".5";
    assert NatValue("5") == 5 && Pow10(1) == 10;
  }

  class ProcessPaymentPage {
    var orderDetails: OrderDetails
    var paymentCompleted: bool

    constructor ()
      ensures orderDetails == OrderDetails("", 0.0) && !paymentCompleted
    {
      orderDetails := OrderDetails("", 0.0);
      paymentCompleted := false;
    }

    /** The effect run for the query: accepted details replace the current ones; otherwise the
        message is shown and the details are kept. */
    method ApplySearchParams(orderId: Option<string>, amount: Option<string>) returns (fx: Effects)
      modifies this
      ensures paymentCompleted == old(paymentCompleted)
      ensures CheckPaymentParams(orderId, amount).Accepted? ==>
        orderDetails == CheckPaymentParams(orderId, amount).details && fx == Quiet
      ensures CheckPaymentParams(orderId, amount).Rejected? ==>
        orderDetails == old(orderDetails) && fx == Effects(Some(CheckPaymentParams(orderId, amount).message), None, false)
    {
      match CheckPaymentParams(orderId, amount)
      case Accepted(details) =>
        orderDetails := details;
        fx := Quiet;
      case Rejected(message) =>
        fx := Effects(Some(message), None, false);
    }

    /** The success view replaces the payment form once a payment has been reported. */
    predicate ShowsSuccessView()
      reads this
      ensures ShowsSuccessView() <==> paymentCompleted
    {
      paymentCompleted
    }

    /** `handlePaymentSuccess`: switch to the success view, keeping the details it prints. */
    method HandlePaymentSuccess()
      modifies this
      ensures ShowsSuccessView() && orderDetails == old(orderDetails)
    {
      paymentCompleted := true;
    }

    /** The timer set on success navigates to "/my-orders-history", a pathname the route table
        does not declare, so the visitor lands on the home page. */
    method AfterPaymentSuccess() returns (fx: Effects)
      requires paymentCompleted
      ensures fx == Effects(None, Some(GoTo(PaymentDoneAsWritten)), false)
      ensures Resolve(fx.navigation.value.path) == RedirectsHome
    {
      PaymentDoneMissesHistory();
      fx := Effects(None, Some(GoTo(PaymentDoneAsWritten)), false);
    }

    /** The timer as intended: the order history by its declared pathname. */
    method AfterPaymentSuccessAsIntended() returns (fx: Effects)
      requires paymentCompleted
      ensures fx == Effects(None, Some(GoTo(OrderHistoryPath)), false)
      ensures Resolve(fx.navigation.value.path) == Shows(OrderHistoryScreen)
    {
      fx := Effects(None, Some(GoTo(OrderHistoryPath)), false);
    }
  }
}
