/** The administrator's payment list: a status filter that re-fetches on change, and three
    figures over the listed payments (revenue, online payments, success rate). */
module AdminPayments {
  import opened Common
  import opened Text
  import opened Seqs
  import opened Domain
  import Dashboard

  const FetchFailed := "An error occurred while fetching payments."

  /** `p.amount || 0`. */
  function Amount(p: Payment): int {
    p.amount.GetOr(0)
  }

  function HasStatus(status: Option<string>): Payment -> bool {
    (p: Payment) => p.paymentStatus == status
  }

  /** The "Total Revenue" card: the amounts of the listed payments in `status`, a missing
      amount adding 0. */
  function PaymentsRevenue(payments: seq<Payment>, status: Option<string>): (r: int)
    ensures r == Sum(Filter(payments, HasStatus(status)), Amount)
    ensures (forall p :: p in payments ==> Amount(p) >= 0) ==> r >= 0
  {
    RevenueIsFilteredSum(payments, status);
    Sum(payments, Dashboard.AmountIn(status))
  }

  lemma {:induction false} RevenueIsFilteredSum(payments: seq<Payment>, status: Option<string>)
    ensures Sum(payments, Dashboard.AmountIn(status)) == Sum(Filter(payments, HasStatus(status)), Amount)
    ensures (forall p :: p in payments ==> Amount(p) >= 0) ==> Sum(payments, Dashboard.AmountIn(status)) >= 0
  {
    if payments != [] {
      var rest := payments[1..];
      assert payments == [payments[0]] + rest;
      SumCons(payments[0], rest, Dashboard.AmountIn(status));
      RevenueIsFilteredSum(rest, status);
      if HasStatus(status)(payments[0]) {
        SumCons(payments[0], Filter(rest, HasStatus(status)), Amount);
      }
    }
  }

  /** As written the card compares with `PaymentStatus.COMPLETED`, which is undefined: it adds
      up the payments without a status. */
  function RevenueAsWritten(payments: seq<Payment>): (r: int)
    ensures r == Sum(Filter(payments, HasStatus(None)), Amount)
  {
    PaymentsRevenue(payments, None)
  }

  /** As intended: the successful payments. */
  function Revenue(payments: seq<Payment>): (r: int)
    ensures r == Sum(Filter(payments, HasStatus(Some(Dashboard.Succeeded))), Amount)
  {
    PaymentsRevenue(payments, Some(Dashboard.Succeeded))
  }

  /** One successful payment of 40.00: the card as written shows 0.00, as intended 40.00. */
  lemma RevenueMissesSuccessful()
    ensures var ps := [Payment(Some(1), Some(3), Some(4000), Some(Dashboard.Succeeded), Some("STRIPE"))];
      RevenueAsWritten(ps) == 0 && Revenue(ps) == 4000
  {
    var a := Payment(Some(1), Some(3), Some(4000), Some(Dashboard.Succeeded), Some("STRIPE"));
    assert [a][1..] == [] && [a][..0] == [];
    assert Filter([a], HasStatus(None)) == [];
    assert Filter([a], HasStatus(Some(Dashboard.Succeeded))) == [a];
  }

  /** Each row prints `payment.paymentStatus!.toLowerCase()`, which throws for a payment without
      a status; whenever every listed payment has one, the card as written shows 0. */
  lemma RenderedRevenueIsZero(payments: seq<Payment>)
    requires forall p :: p in payments ==> p.paymentStatus.Some?
    ensures RevenueAsWritten(payments) == 0
  {
    FilterKeepsNone(payments, HasStatus(None));
  }

  /** `'CASH'` is the one offline gateway; a payment without a gateway counts as online. */
  predicate Online(p: Payment) {
    p.paymentGateway != Some("CASH")
  }

  /** The "Online Payments" card. */
  function OnlineCount(payments: seq<Payment>): (n: nat)
    ensures n == Count(payments, Online) && n <= |payments|
    ensures n == |payments| <==> forall p :: p in payments ==> Online(p)
  {
    OnlineCountFacts(payments);
    |Filter(payments, Online)|
  }

  lemma OnlineCountFacts(payments: seq<Payment>)
    ensures |Filter(payments, Online)| <= |payments|
    ensures |Filter(payments, Online)| == |payments| <==> forall p :: p in payments ==> Online(p)
  {
    SubsequenceLength(Filter(payments, Online), payments);
    if forall p :: p in payments ==> Online(p) {
      FilterKeepsAll(payments, Online);
    } else {
      OnlineShorter(payments);
    }
  }

  lemma {:induction false} OnlineShorter(payments: seq<Payment>)
    requires exists p :: p in payments && !Online(p)
    ensures |Filter(payments, Online)| < |payments|
  {
    var rest := payments[1..];
    if Online(payments[0]) {
      assert exists p :: p in rest && !Online(p);
      OnlineShorter(rest);
    } else {
      SubsequenceLength(Filter(rest, Online), rest);
    }
  }

  /** `Math.round(c / n * 100)` for `n > 0`, on exact fractions: the nearest whole percentage,
      a half rounding up. */
  function RoundedPercent(c: nat, n: nat): (r: nat)
    requires n > 0
    ensures 2 * n * r <= 200 * c + n < 2 * n * (r + 1)
    ensures c <= n ==> r <= 100
  {
    RoundingBounds(c, n);
    (200 * c + n) / (2 * n)
  }

  lemma RoundingBounds(c: nat, n: nat)
    requires n > 0
    ensures var q := (200 * c + n) / (2 * n);
      2 * n * q <= 200 * c + n < 2 * n * (q + 1) && (c <= n ==> q <= 100)
  {
    var x, d := 200 * c + n, 2 * n;
    DivBounds(x, d);
    if c <= n {
      assert x < d * 101;
      QuotientBelow(x, d, 101);
    }
  }

  lemma DivBounds(x: nat, d: nat)
    requires d > 0
    ensures d * (x / d) <= x < d * (x / d + 1)
  {
    var q, m := x / d, x % d;
    assert x == d * q + m;
    assert d * (q + 1) == d * q + d;
  }

  lemma QuotientBelow(x: nat, d: nat, k: nat)
    requires d > 0 && x < d * k
    ensures x / d < k
  {
    var q := x / d;
    DivBounds(x, d);
    if q >= k {
      MulMono(d, k, q);
    }
  }

  lemma MulMono(d: nat, a: nat, b: nat)
    requires a <= b
    ensures d * a <= d * b
  {
    assert d * b == d * a + d * (b - a);
  }

  /** The status the success rate counts, as written: the literal 'COMPLETED'. */
  const CompletedLiteral := "COMPLETED"

  /** The number of listed payments in `status`. */
  function StatusCount(payments: seq<Payment>, status: string): (n: nat)
    ensures n <= |payments|
    ensures n == |Filter(payments, HasStatus(Some(status)))|
  {
    var done := Filter(payments, HasStatus(Some(status)));
    SubsequenceLength(done, payments);
    |done|
  }

  /** The "Success Rate" card counting the payments in `status` (the page passes
      `CompletedLiteral`): "0%" for an empty list, otherwise the rounded percentage. */
  function SuccessRateText(payments: seq<Payment>, status: string): (text: string)
    ensures |text| >= 2 && text[|text| - 1] == '%'
    ensures payments == [] ==> text == "0%"
    ensures payments != [] ==>
      var rate := RoundedPercent(StatusCount(payments, status), |payments|);
      rate <= 100 && ParseNumber(text[..|text| - 1]) == Some(rate as real)
  {
    if payments == [] then "0%"
    else
      var rate := RoundedPercent(StatusCount(payments, status), |payments|);
      DecimalStringRoundTrip(rate);
      assert (DecimalString(rate) + "%")[..|DecimalString(rate)|] == DecimalString(rate);
      DecimalString(rate) + "%"
  }

  /** One successful payment: the card as written reads 0%, as intended 100%. */
  lemma SuccessRateMissesSuccessful()
    ensures var ps := [Payment(Some(1), Some(3), Some(4000), Some(Dashboard.Succeeded), Some("STRIPE"))];
      SuccessRateText(ps, CompletedLiteral) == "0%" && SuccessRateText(ps, Dashboard.Succeeded) == "100%"
  {
    var ps := [Payment(Some(1), Some(3), Some(4000), Some(Dashboard.Succeeded), Some("STRIPE"))];
    OneSuccessCounts(ps[0]);
    PercentTexts();
  }

  lemma OneSuccessCounts(a: Payment)
    requires a.paymentStatus == Some(Dashboard.Succeeded)
    ensures StatusCount([a], CompletedLiteral) == 0 && StatusCount([a], Dashboard.Succeeded) == 1
  {
    assert [a][1..] == [];
    assert Filter([a], HasStatus(Some(CompletedLiteral))) == [];
    assert Filter([a], HasStatus(Some(Dashboard.Succeeded))) == [a];
  }

  lemma PercentTexts()
    ensures DecimalString(RoundedPercent(0, 1)) + "%" == "0%"
    ensures DecimalString(RoundedPercent(1, 1)) + "%" == "100%"
  {
    assert RoundedPercent(0, 1) == 0 && RoundedPercent(1, 1) == 100;
    assert DecimalString(0) == "0";
    assert DecimalString(100) == DecimalString(10) + "0" == DecimalString(1) + "0" + "0";
  }

  /** `€${revenue.toFixed(2)}`, with the revenue as written. */
  function RevenueText(payments: seq<Payment>): (text: string)
    ensures |text| > 1 && text[0] == '€'
    ensures ParseNumber(text[1..]) == Some(RevenueAsWritten(payments) as real / 100.0)
  {
    var r := RevenueAsWritten(payments);
    EuroTextRoundTrip(r);
    EuroText(r)
  }

  function EuroText(c: int): string {
    "€" + FixedCents(c)
  }

  /** The figure after the euro sign reads back as the amount. */
  lemma EuroTextRoundTrip(c: int)
    ensures |EuroText(c)| > 1 && EuroText(c)[0] == '€'
    ensures ParseNumber(EuroText(c)[1..]) == Some(c as real / 100.0)
  {
    FixedCentsRoundTrip(c);
    assert EuroText(c)[1..] == FixedCents(c);
  }

  /** The values of the `PaymentStatus` enum. */
  const PaymentStatuses := ["PENDING", "SUCCESS", "FAILED", "CANCELLED", "REFUNDED"]

  /** The four options of the status filter. */
  datatype FilterChoice = AllPayments | CompletedPayments | PendingPayments | FailedPayments

  /** The value a chosen option sets, as written: the options for `PaymentStatus.ALL` and
      `PaymentStatus.COMPLETED` have no value, so their text is used instead. The filter starts
      as `PaymentStatus.ALL`, that is undefined (`None`), which lists everything. */
  function FilterValueAsWritten(c: FilterChoice): (v: string)
    ensures v in PaymentStatuses <==> c == PendingPayments || c == FailedPayments
  {
    assert "All Payments"[0] !in {'P', 'S', 'F', 'C', 'R'};
    assert "Completed"[1] != "CANCELLED"[1];
    match c
    case AllPayments => "All Payments"
    case CompletedPayments => "Completed"
    case PendingPayments => "PENDING"
    case FailedPayments => "FAILED"
  }

  /** The list kept, as written: an undefined filter keeps everything, any other value keeps the
      payments whose status equals it. */
  function ShownAsWritten(data: seq<Payment>, filter: Option<string>): (r: seq<Payment>)
    ensures filter.None? ==> r == data
    ensures filter.Some? ==> forall p :: p in r <==> p in data && p.paymentStatus == filter
  {
    if filter.None? then data else Filter(data, HasStatus(filter))
  }

  /** Choosing "All Payments" as written hides a pending payment, and choosing "Completed" hides
      a successful one. */
  lemma ChoosingAllShowsNothing()
    ensures var pending := Payment(Some(1), Some(3), Some(900), Some("PENDING"), Some("PAYPAL"));
      ShownAsWritten([pending], Some(FilterValueAsWritten(AllPayments))) == []
    ensures var done := Payment(Some(2), Some(4), Some(900), Some(Dashboard.Succeeded), Some("PAYPAL"));
      ShownAsWritten([done], Some(FilterValueAsWritten(CompletedPayments))) == []
  {
    assert "PENDING"[0] != "All Payments"[0];
    assert Dashboard.Succeeded[1] != "Completed"[1];
  }

  /** The filter values as intended: one status name per option ("Completed" the successful
      payments), and "ALL" for all. */
  function FilterValue(c: FilterChoice): (v: string)
    ensures v == "ALL" <==> c == AllPayments
  {
    match c
    case AllPayments => "ALL"
    case CompletedPayments => Dashboard.Succeeded
    case PendingPayments => "PENDING"
    case FailedPayments => "FAILED"
  }

  /** The option a filter value belongs to, when it belongs to one. */
  function ChoiceOf(v: string): (c: Option<FilterChoice>)
    ensures c.Some? ==> FilterValue(c.value) == v
  {
    if v == "ALL" then Some(AllPayments)
    else if v == Dashboard.Succeeded then Some(CompletedPayments)
    else if v == "PENDING" then Some(PendingPayments)
    else if v == "FAILED" then Some(FailedPayments)
    else None
  }

  /** Every option's value leads back to that option. */
  lemma ChoiceRoundTrip(c: FilterChoice)
    ensures ChoiceOf(FilterValue(c)) == Some(c)
  {
    assert "ALL"[0] != Dashboard.Succeeded[0] && "ALL"[0] != "PENDING"[0] && "ALL"[0] != "FAILED"[0];
    assert Dashboard.Succeeded[0] != "PENDING"[0] && Dashboard.Succeeded[0] != "FAILED"[0];
    assert "PENDING"[0] != "FAILED"[0];
  }

  /** The list kept as intended: "ALL" keeps everything, a status keeps the payments in it. */
  function Shown(data: seq<Payment>, filter: string): (r: seq<Payment>)
    ensures filter == "ALL" ==> r == data
    ensures filter != "ALL" ==> forall p :: p in r <==> p in data && p.paymentStatus == Some(filter)
    ensures IsSubsequence(r, data)
  {
    if filter == "ALL" then
      FilterKeepsAll(data, (p: Payment) => true);
      data
    else Filter(data, HasStatus(Some(filter)))
  }

  /** `/admin/payments/${payment.id!}`; a payment without an id gives "undefined". */
  function ViewPaymentPath(id: Option<nat>): (path: string)
    ensures |path| > 16 && path[..16] == "/admin/payments/"
    ensures id.Some? ==> ParseNumber(path[16..]) == Some(id.value as real)
    ensures id.None? ==> path[16..] == "undefined"
  {
    if id.Some? then
      DecimalStringRoundTrip(id.value);
      var path := "/admin/payments/" + DecimalString(id.value);
      assert path[16..] == DecimalString(id.value);
      path
    else "/admin/payments/undefined"
  }

  class AdminPaymentsPage {
    var payments: seq<Payment>
    /** The select's value: `PaymentStatus.ALL` is undefined, so the filter starts as `None`. */
    var filter: Option<string>

    constructor ()
      ensures payments == [] && filter == None
    {
      payments := [];
      filter := None;
    }

    /** `fetchPayments` under the current filter: a 200 answer replaces the list with the
        payments the filter keeps, all of them while the filter is undefined. */
    method FetchPayments(reply: Call<seq<Payment>>) returns (fx: Effects)
      requires WellFormed(reply)
      modifies this
      ensures filter == old(filter)
      ensures fx.sent && fx.navigation.None?
      ensures reply.Returned? && IsOk(reply.response) ==>
        payments == ShownAsWritten(reply.response.data.value, filter) && fx.shown.None?
      ensures reply.Returned? && IsOk(reply.response) && filter.None? ==> payments == reply.response.data.value
      ensures reply.Returned? && !IsOk(reply.response) ==> payments == old(payments) && fx.shown.None?
      ensures reply.Threw? ==> payments == old(payments) && fx.shown == Some(Caught(reply.failure, FetchFailed))
    {
      match reply
      case Threw(failure) =>
        fx := Effects(Some(Caught(failure, FetchFailed)), None, true);
      case Returned(response) =>
        if IsOk(response) {
          payments := ShownAsWritten(response.data.value, filter);
        }
        fx := Effects(None, None, true);
    }

    /** Choosing an option sets the filter to the option's value, and the effect on the filter
        fetches again. The "All Payments" and "Completed" options set their text, so afterwards
        only payments whose status is that text, never one of the enum's, are listed. */
    method SelectFilter(choice: FilterChoice, reply: Call<seq<Payment>>) returns (fx: Effects)
      requires WellFormed(reply)
      modifies this
      ensures filter == Some(FilterValueAsWritten(choice))
      ensures fx.sent && fx.navigation.None?
      ensures reply.Returned? && IsOk(reply.response) ==>
        payments == ShownAsWritten(reply.response.data.value, filter) && fx.shown.None?
      ensures (choice == AllPayments || choice == CompletedPayments) && reply.Returned? && IsOk(reply.response) ==>
        forall p :: p in payments ==> p.paymentStatus.Some? && p.paymentStatus.value !in PaymentStatuses
      ensures !(reply.Returned? && IsOk(reply.response)) ==> payments == old(payments)
      ensures reply.Threw? ==> fx.shown == Some(Caught(reply.failure, FetchFailed))
    {
      filter := Some(FilterValueAsWritten(choice));
      fx := FetchPayments(reply);
    }
  }
}
