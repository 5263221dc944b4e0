/** The administrator's order list: the status filter turned into the request, the items
    column and the payment-status column of each row. */
module AdminOrders {
  import opened Common
  import opened Seqs
  import opened Domain
  import opened Session
  import Tally
  import Dashboard

  const FetchFailed := "An error occurred while fetching orders."

  /** `filter === "all" ? null : filter`. */
  function StatusParam(filter: string): (s: Option<string>)
    ensures s.None? <==> filter == "all"
    ensures s.Some? ==> s.value == filter
  {
    if filter == "all" then None else Some(filter)
  }

  /** The URL the list is requested from: the bare listing for "all", the status query otherwise. */
  function RequestUrl(filter: string): (url: string)
    ensures filter == "all" ==> url == OrdersPath
    ensures filter != "all" && filter != "" ==>
      url == OrdersPath + "?orderStatus=" + filter + "&page=0&size=200"
  {
    AllOrdersUrl(StatusParam(filter))
  }

  /** The items column: `order.orderItems.reduce((sum, item) => sum + item.quantity, 0)`. */
  function ItemCount(order: Order): (n: int)
    ensures order.orderItems == [] ==> n == 0
    ensures n == Tally.Total(Dashboard.ItemTally(order.orderItems))
    ensures (forall x :: x in order.orderItems ==> x.quantity >= 0) ==> n >= 0
  {
    Dashboard.ItemTallyCounts(order.orderItems);
    NonNegativeQuantities(order.orderItems);
    Sum(order.orderItems, Dashboard.Quantity)
  }

  lemma {:induction false} NonNegativeQuantities(items: seq<OrderItem>)
    ensures (forall x :: x in items ==> x.quantity >= 0) ==> Sum(items, Dashboard.Quantity) >= 0
  {
    if items != [] {
      var init := items[..|items| - 1];
      assert forall x :: x in init ==> x in items;
      NonNegativeQuantities(init);
    }
  }

  /** The items columns of a list of orders add up to the quantities the dashboard tallies. */
  lemma {:induction false} ItemCountsAgree(orders: seq<Order>)
    ensures Sum(orders, ItemCount) == Tally.Total(Dashboard.ItemTally(Dashboard.AllItems(orders)))
  {
    Dashboard.ItemTallyCounts(Dashboard.AllItems(orders));
    QuantitiesOfAll(orders);
  }

  lemma {:induction false} QuantitiesOfAll(orders: seq<Order>)
    ensures Sum(orders, ItemCount) == Sum(Dashboard.AllItems(orders), Dashboard.Quantity)
  {
    if orders != [] {
      var init := orders[..|orders| - 1];
      var last := orders[|orders| - 1];
      QuantitiesOfAll(init);
      SumAppend(Dashboard.AllItems(init), last.orderItems, Dashboard.Quantity);
      Dashboard.ItemTallyCounts(last.orderItems);
    }
  }

  /** The payment column: `order.paymentStatus || 'PENDING'`. */
  function PaymentStatusLabel(order: Order): (shown: string)
    ensures order.paymentStatus.None? || order.paymentStatus.value == "" ==> shown == "PENDING"
    ensures order.paymentStatus.Some? && order.paymentStatus.value != "" ==> shown == order.paymentStatus.value
  {
    OrElse(order.paymentStatus, "PENDING")
  }

  class AdminOrdersPage {
    var orders: seq<Order>
    var filter: string

    constructor ()
      ensures orders == [] && filter == "all"
    {
      orders := [];
      filter := "all";
    }

    /** `fetchOrders` with the current filter: a 200 answer replaces the list with the page's
        content. It runs when the page mounts. */
    method FetchOrders(reply: Call<Dashboard.OrderPage>) returns (url: string, fx: Effects)
      requires WellFormed(reply)
      modifies this
      ensures url == RequestUrl(filter) && filter == old(filter)
      ensures fx.sent && fx.navigation.None?
      ensures reply.Returned? && IsOk(reply.response) ==> orders == reply.response.data.value.content && fx.shown.None?
      ensures reply.Returned? && !IsOk(reply.response) ==> orders == old(orders) && fx.shown.None?
      ensures reply.Threw? ==> orders == old(orders) && fx.shown == Some(Caught(reply.failure, FetchFailed))
    {
      url := RequestUrl(filter);
      match reply
      case Threw(failure) =>
        fx := Effects(Some(Caught(failure, FetchFailed)), None, true);
      case Returned(response) =>
        if IsOk(response) {
          orders := response.data.value.content;
        }
        fx := Effects(None, None, true);
    }

    /** Choosing an option only records it: the fetch effect does not depend on the filter, so
        the list stays as it is. */
    method SelectFilter(value: string)
      modifies this
      ensures filter == value && orders == old(orders)
    {
      filter := value;
    }
  }
}
