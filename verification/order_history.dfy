/** The customer's order history: the orders are loaded, then every item is looked up one by
    one to learn whether the customer already reviewed it for that order. The first lookup that
    throws abandons the whole load. */
module OrderHistory {
  import opened Common
  import opened Text
  import opened Domain
  import opened Seqs

  /** An order item, with `hasReview` when its lookup answered 200 and absent otherwise. */
  datatype EnhancedItem = EnhancedItem(item: OrderItem, hasReview: Option<bool>)

  /** `{ ...order, orderItems: enhancedItems }`. */
  datatype EnhancedOrder = EnhancedOrder(order: Order, orderItems: seq<EnhancedItem>)

  /** How a load that may be abandoned part-way ends. */
  datatype Outcome<T> = Done(value: T) | Aborted(failure: Failure)

  /** `getOrderItemById` answers, by item id. A 200 lookup carries the item. */
  ghost predicate Lookups(fetch: string -> Call<OrderItem>) {
    forall id :: WellFormed(fetch(id))
  }

  /** `reviews.some(review => review.orderId === Number(orderId))`. A review without an order
      id, or an order id that is not a number, never matches. */
  predicate ReviewedFor(reviews: seq<Review>, orderId: string)
    ensures ReviewedFor(reviews, orderId) <==>
      exists r :: r in reviews && r.orderId.Some? && ParseNumber(orderId) == Some(r.orderId.value as real)
  {
    if reviews == [] then false
    else
      var r := reviews[0];
      assert forall x :: x in reviews <==> x == r || x in reviews[1..];
      (r.orderId.Some? && ParseNumber(orderId) == Some(r.orderId.value as real))
      || ReviewedFor(reviews[1..], orderId)
  }

  /** One pass of the inner loop. */
  function EnhanceItem(orderId: string, item: OrderItem, lookup: Call<OrderItem>): (r: Outcome<EnhancedItem>)
    requires WellFormed(lookup)
    ensures r.Aborted? <==> lookup.Threw?
    ensures r.Aborted? ==> r.failure == lookup.failure
    ensures r.Done? ==> r.value.item == item
    ensures r.Done? ==> (r.value.hasReview.Some? <==> IsOk(lookup.response))
    ensures r.Done? && r.value.hasReview.Some? ==>
      r.value.hasReview.value == ReviewedFor(lookup.response.data.value.menu.reviews, orderId)
  {
    match lookup
    case Threw(f) => Aborted(f)
    case Returned(response) =>
      if IsOk(response) then Done(EnhancedItem(item, Some(ReviewedFor(response.data.value.menu.reviews, orderId))))
      else Done(EnhancedItem(item, None))
  }

  predicate AllReturned(items: seq<OrderItem>, fetch: string -> Call<OrderItem>) {
    forall k :: 0 <= k < |items| ==> fetch(items[k].id).Returned?
  }

  /** The inner loop over one order's items, in order. */
  function EnhanceItems(orderId: string, items: seq<OrderItem>, fetch: string -> Call<OrderItem>): (r: Outcome<seq<EnhancedItem>>)
    requires Lookups(fetch)
    ensures r.Done? <==> AllReturned(items, fetch)
    ensures r.Done? ==> |r.value| == |items|
    ensures r.Aborted? ==> exists k :: 0 <= k < |items| && fetch(items[k].id) == Threw(r.failure)
    decreases |items|
  {
    if items == [] then Done([])
    else
      var init := items[..|items| - 1];
      var last := items[|items| - 1];
      match EnhanceItems(orderId, init, fetch)
      case Aborted(f) => Aborted(f)
      case Done(done) =>
        match EnhanceItem(orderId, last, fetch(last.id))
        case Aborted(f) => Aborted(f)
        case Done(e) => Done(done + [e])
  }

  /** Each item of a completed pass is the one-item step applied to the item in that place. */
  lemma {:induction false} EnhanceItemsEach(orderId: string, items: seq<OrderItem>, fetch: string -> Call<OrderItem>)
    requires Lookups(fetch)
    ensures var r := EnhanceItems(orderId, items, fetch);
      r.Done? ==> forall k :: 0 <= k < |items| ==> Done(r.value[k]) == EnhanceItem(orderId, items[k], fetch(items[k].id))
    decreases |items|
  {
    if items != [] {
      var init := items[..|items| - 1];
      EnhanceItemsEach(orderId, init, fetch);
      assert forall k :: 0 <= k < |init| ==> init[k] == items[k];
    }
  }

  predicate AllOrdersReturned(orders: seq<Order>, fetch: string -> Call<OrderItem>) {
    forall i :: 0 <= i < |orders| ==> AllReturned(orders[i].orderItems, fetch)
  }

  /** The outer loop over the orders, in order. */
  function EnhanceOrders(orders: seq<Order>, fetch: string -> Call<OrderItem>): (r: Outcome<seq<EnhancedOrder>>)
    requires Lookups(fetch)
    ensures r.Done? <==> AllOrdersReturned(orders, fetch)
    ensures r.Done? ==> |r.value| == |orders|
    ensures r.Done? ==> forall i :: 0 <= i < |orders| ==>
      && r.value[i].order == orders[i]
      && EnhanceItems(orders[i].id, orders[i].orderItems, fetch) == Done(r.value[i].orderItems)
    ensures r.Aborted? ==> exists i :: 0 <= i < |orders| && EnhanceItems(orders[i].id, orders[i].orderItems, fetch) == Aborted(r.failure)
    decreases |orders|
  {
    if orders == [] then Done([])
    else
      var init := orders[..|orders| - 1];
      var last := orders[|orders| - 1];
      match EnhanceOrders(init, fetch)
      case Aborted(f) => Aborted(f)
      case Done(done) =>
        match EnhanceItems(last.id, last.orderItems, fetch)
        case Aborted(f) => Aborted(f)
        case Done(items) => Done(done + [EnhancedOrder(last, items)])
  }

  /** Once a prefix of the items is abandoned, so is the whole list, with the same failure. */
  lemma {:induction false} ItemsAbortStays(orderId: string, items: seq<OrderItem>, k: nat, fetch: string -> Call<OrderItem>)
    requires Lookups(fetch)
    requires k <= |items| && EnhanceItems(orderId, items[..k], fetch).Aborted?
    ensures EnhanceItems(orderId, items, fetch) == EnhanceItems(orderId, items[..k], fetch)
    decreases |items| - k
  {
    if k == |items| {
      assert items[..k] == items;
    } else {
      var p := items[..k + 1];
      assert p[..|p| - 1] == items[..k];
      ItemsAbortStep(orderId, p, fetch);
      ItemsAbortStays(orderId, items, k + 1, fetch);
    }
  }

  lemma ItemsAbortStep(orderId: string, items: seq<OrderItem>, fetch: string -> Call<OrderItem>)
    requires Lookups(fetch)
    requires |items| > 0 && EnhanceItems(orderId, items[..|items| - 1], fetch).Aborted?
    ensures EnhanceItems(orderId, items, fetch) == EnhanceItems(orderId, items[..|items| - 1], fetch)
  {
  }

  /** Once a prefix of the orders is abandoned, so is the whole list, with the same failure. */
  lemma {:induction false} OrdersAbortStays(orders: seq<Order>, k: nat, fetch: string -> Call<OrderItem>)
    requires Lookups(fetch)
    requires k <= |orders| && EnhanceOrders(orders[..k], fetch).Aborted?
    ensures EnhanceOrders(orders, fetch) == EnhanceOrders(orders[..k], fetch)
    decreases |orders| - k
  {
    if k < |orders| {
      var p := orders[..k + 1];
      assert p[..|p| - 1] == orders[..k];
      OrdersAbortStep(p, fetch);
      OrdersAbortStays(orders, k + 1, fetch);
    } else {
      assert orders[..k] == orders;
    }
  }

  lemma OrdersAbortStep(orders: seq<Order>, fetch: string -> Call<OrderItem>)
    requires Lookups(fetch)
    requires |orders| > 0 && EnhanceOrders(orders[..|orders| - 1], fetch).Aborted?
    ensures EnhanceOrders(orders, fetch) == EnhanceOrders(orders[..|orders| - 1], fetch)
  {
  }

  /** When no lookup answers 200, no item learns whether it was reviewed. */
  lemma NoAnswerNoFlags(orders: seq<Order>, fetch: string -> Call<OrderItem>)
    requires Lookups(fetch)
    requires forall id :: fetch(id).Returned? && !IsOk(fetch(id).response)
    ensures EnhanceOrders(orders, fetch).Done?
    ensures forall i, k :: 0 <= i < |orders| && 0 <= k < |orders[i].orderItems| ==>
      EnhanceOrders(orders, fetch).value[i].orderItems[k] == EnhancedItem(orders[i].orderItems[k], None)
  {
    var r := EnhanceOrders(orders, fetch);
    forall i, k | 0 <= i < |orders| && 0 <= k < |orders[i].orderItems|
      ensures r.value[i].orderItems[k] == EnhancedItem(orders[i].orderItems[k], None)
    {
      var items := orders[i].orderItems;
      EnhanceItemsEach(orders[i].id, items, fetch);
      assert EnhanceItem(orders[i].id, items[k], fetch(items[k].id)) == Done(r.value[i].orderItems[k]);
    }
  }

  /** The "Leave Review" button: a delivered order (in any letter case) and an item not known
      to be reviewed, which includes an item whose lookup failed. */
  predicate ShowLeaveReview(orderStatus: string, hasReview: Option<bool>)
    ensures ShowLeaveReview(orderStatus, hasReview) ==> |orderStatus| == 9
    ensures ShowLeaveReview(orderStatus, hasReview) <==>
      ToLower(orderStatus) == "delivered" && (hasReview.None? || !hasReview.value)
  {
    ToLower(orderStatus) == "delivered" && hasReview != Some(true)
  }

  /** `handleLeaveReview`: the review page with the order and the menu item in its query. */
  function LeaveReviewPath(orderId: string, menuId: nat): (path: string)
    ensures |path| > 30 + |orderId| && path[..22] == "/leave-review?orderId="
    ensures path[22..22 + |orderId|] == orderId
    ensures path[22 + |orderId|..30 + |orderId|] == "&menuId="
    ensures ParseNumber(path[30 + |orderId|..]) == Some(menuId as real)
  {
    var head := "/leave-review?orderId=" + orderId + "&menuId=";
    DecimalStringRoundTrip(menuId);
    SplitAppend(head, DecimalString(menuId));
    SplitAppend("/leave-review?orderId=" + orderId, "&menuId=");
    SplitAppend("/leave-review?orderId=", orderId);
    head + DecimalString(menuId)
  }

  /** The inner loop of the mount effect: one lookup per item of an order, in order, stopping
      at the first lookup that throws. */
  method LookUpItems(order: Order, fetch: string -> Call<OrderItem>) returns (out: Outcome<seq<EnhancedItem>>)
    requires Lookups(fetch)
    ensures out == EnhanceItems(order.id, order.orderItems, fetch)
  {
    var items: seq<EnhancedItem> := [];
    var k := 0;
    while k < |order.orderItems|
      invariant 0 <= k <= |order.orderItems|
      invariant EnhanceItems(order.id, order.orderItems[..k], fetch) == Done(items)
    {
      var item := order.orderItems[k];
      var lookup := fetch(item.id);
      assert order.orderItems[..k + 1][..k] == order.orderItems[..k];
      match EnhanceItem(order.id, item, lookup) {
        case Aborted(f) =>
          ItemsAbortStays(order.id, order.orderItems, k + 1, fetch);
          return Aborted(f);
        case Done(e) =>
          items := items + [e];
      }
      k := k + 1;
    }
    assert order.orderItems[..k] == order.orderItems;
    return Done(items);
  }

  class OrderHistoryPage {
    var orders: seq<EnhancedOrder>

    constructor ()
      ensures orders == []
    {
      orders := [];
    }

    /** "No orders found." replaces the whole page while the list is empty. */
    predicate ShowsEmptyState()
      reads this
      ensures ShowsEmptyState() <==> orders == []
    {
      |orders| == 0
    }

    /** The mount effect: load the customer's orders, then look every item up, order by order
        and item by item; the new list is stored only if every lookup returned. */
    method FetchOrders(reply: Call<seq<Order>>, fetch: string -> Call<OrderItem>) returns (fx: Effects)
      requires WellFormed(reply) && Lookups(fetch)
      modifies this
      ensures fx.sent && fx.navigation.None?
      ensures reply.Threw? ==> orders == old(orders) && fx.shown == Some(Caught(reply.failure, ""))
      ensures reply.Returned? && !IsOk(reply.response) ==> orders == old(orders) && fx.shown.None?
      ensures reply.Returned? && IsOk(reply.response) ==>
        var out := EnhanceOrders(reply.response.data.value, fetch);
        && (out.Done? ==> orders == out.value && fx.shown.None?)
        && (out.Aborted? ==> orders == old(orders) && fx.shown == Some(Caught(out.failure, "")))
    {
      if reply.Threw? {
        return Effects(Some(Caught(reply.failure, "")), None, true);
      }
      var response := reply.response;
      if !IsOk(response) {
        return Effects(None, None, true);
      }
      var mine := response.data.value;
      var enhanced: seq<EnhancedOrder> := [];
      var i := 0;
      while i < |mine|
        invariant 0 <= i <= |mine|
        invariant EnhanceOrders(mine[..i], fetch) == Done(enhanced)
        invariant orders == old(orders)
      {
        var order := mine[i];
        var looked := LookUpItems(order, fetch);
        assert mine[..i + 1][..i] == mine[..i];
        if looked.Aborted? {
          OrdersAbortStays(mine, i + 1, fetch);
          return Effects(Some(Caught(looked.failure, "")), None, true);
        }
        var items := looked.value;
        enhanced := enhanced + [EnhancedOrder(order, items)];
        i := i + 1;
      }
      assert mine[..i] == mine;
      orders := enhanced;
      fx := Effects(None, None, true);
    }
  }
}
