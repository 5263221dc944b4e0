/** The administrator's dashboard: order, menu and payment totals, the status distribution,
    the most ordered items and the revenue, recomputed from three listings on every load. */
module Dashboard {
  import opened Common
  import opened Text
  import opened Seqs
  import opened Domain
  import opened Tally

  /** The `data` of `getAllOrders`: one page of orders. */
  datatype OrderPage = OrderPage(content: seq<Order>)

  /** What the dashboard shows. `totalRevenue` is `None` when the sum became NaN. */
  datatype Stats = Stats(
    totalOrders: nat,
    totalRevenue: Option<int>,
    activeCustomers: int,
    menu: nat,
    recentOrders: seq<Order>,
    orderStatusDistribution: seq<Entry>,
    popularItems: seq<Entry>)

  const EmptyStats := Stats(0, Some(0), 0, 0, [], [], [])

  const FetchFailed := "Failed to fetch dashboard data"

  /** 1 for an order in status `s`, 0 otherwise. */
  function InStatus(s: string): Order -> int {
    (o: Order) => if o.orderStatus == s then 1 else 0
  }

  /** The `reduce` that counts the orders of every status, keys in order of first appearance. */
  function StatusCounts(orders: seq<Order>): (t: seq<Entry>)
    ensures DistinctKeys(t)
    ensures forall s :: Lookup(t, s) == Sum(orders, InStatus(s))
    ensures forall s :: s in KeysOf(t) <==> exists o :: o in orders && o.orderStatus == s
    ensures Total(t) == |orders|
  {
    if orders == [] then []
    else
      var init := orders[..|orders| - 1];
      var last := orders[|orders| - 1];
      var prev := StatusCounts(init);
      BumpFacts(prev, last.orderStatus, 1);
      BumpKeepsDistinct(prev, last.orderStatus, 1);
      assert forall o :: o in orders <==> o in init || o == last;
      Bump(prev, last.orderStatus, 1)
  }

  /** Every item of every order, order by order. */
  function AllItems(orders: seq<Order>): (items: seq<OrderItem>)
    ensures forall x :: x in items <==> exists o :: o in orders && x in o.orderItems
  {
    if orders == [] then []
    else
      var init := orders[..|orders| - 1];
      assert forall o :: o in orders <==> o in init || o == orders[|orders| - 1];
      AllItems(init) + orders[|orders| - 1].orderItems
  }

  /** The quantity of an item of menu item `name`, 0 for any other. */
  function QuantityOf(name: string): OrderItem -> int {
    (x: OrderItem) => if x.menu.name == name then x.quantity else 0
  }

  function Quantity(x: OrderItem): int {
    x.quantity
  }

  /** `itemCounts`: the quantities ordered, summed per menu item name, each name recorded
      where it first appears. */
  function ItemTally(items: seq<OrderItem>): seq<Entry> {
    if items == [] then []
    else
      var last := items[|items| - 1];
      Bump(ItemTally(items[..|items| - 1]), last.menu.name, last.quantity)
  }

  /** Every name is counted once, with the sum of the quantities ordered under it. */
  lemma {:induction false} ItemTallyCounts(items: seq<OrderItem>)
    ensures DistinctKeys(ItemTally(items))
    ensures forall name :: Lookup(ItemTally(items), name) == Sum(items, QuantityOf(name))
    ensures Total(ItemTally(items)) == Sum(items, Quantity)
  {
    if items != [] {
      var init := items[..|items| - 1];
      var last := items[|items| - 1];
      ItemTallyCounts(init);
      BumpFacts(ItemTally(init), last.menu.name, last.quantity);
      BumpKeepsDistinct(ItemTally(init), last.menu.name, last.quantity);
    }
  }

  lemma ItemTallyStep(before: seq<OrderItem>, items: seq<OrderItem>, k: nat)
    requires k < |items|
    ensures ItemTally(before + items[..k + 1]) == Bump(ItemTally(before + items[..k]), items[k].menu.name, items[k].quantity)
  {
    PrefixStep(before, items, k);
    ItemTallyAppend(before + items[..k], items[k]);
  }

  lemma ItemTallyAppend(items: seq<OrderItem>, x: OrderItem)
    ensures ItemTally(items + [x]) == Bump(ItemTally(items), x.menu.name, x.quantity)
  {
    assert (items + [x])[..|items|] == items;
  }

  lemma ItemTallyEnds(before: seq<OrderItem>, items: seq<OrderItem>)
    ensures ItemTally(before + items[..0]) == ItemTally(before)
    ensures ItemTally(before + items[..|items|]) == ItemTally(before + items)
  {
    assert before + items[..0] == before;
    assert items[..|items|] == items;
  }

  lemma AllItemsStep(orders: seq<Order>, i: nat)
    requires i < |orders|
    ensures AllItems(orders[..i + 1]) == AllItems(orders[..i]) + orders[i].orderItems
  {
    assert orders[..i + 1][..i] == orders[..i];
  }

  /** The two nested `forEach` loops that fill `itemCounts`. */
  method ComputeItemCounts(orders: seq<Order>) returns (counts: seq<Entry>)
    ensures counts == ItemTally(AllItems(orders))
    ensures DistinctKeys(counts)
    ensures forall name :: Lookup(counts, name) == Sum(AllItems(orders), QuantityOf(name))
  {
    counts := [];
    var i := 0;
    while i < |orders|
      invariant 0 <= i <= |orders|
      invariant counts == ItemTally(AllItems(orders[..i]))
    {
      counts := TallyItems(counts, AllItems(orders[..i]), orders[i].orderItems);
      AllItemsStep(orders, i);
      i := i + 1;
    }
    assert orders[..i] == orders;
    ItemTallyCounts(AllItems(orders));
  }

  /** The inner `forEach`: the items of one order added to the tally of the items before them. */
  method TallyItems(counts: seq<Entry>, before: seq<OrderItem>, items: seq<OrderItem>) returns (out: seq<Entry>)
    requires counts == ItemTally(before)
    ensures out == ItemTally(before + items)
  {
    out := counts;
    var k := 0;
    ItemTallyEnds(before, items);
    while k < |items|
      invariant 0 <= k <= |items|
      invariant out == ItemTally(before + items[..k])
    {
      ItemTallyStep(before, items, k);
      out := Bump(out, items[k].menu.name, items[k].quantity);
      k := k + 1;
    }
  }

  /** `popularItems`: the five largest tallies, largest first. */
  function PopularItems(counts: seq<Entry>): (r: seq<Entry>)
    ensures |r| == if |counts| < 5 then |counts| else 5
    ensures NonIncreasing(r)
    ensures multiset(r) <= multiset(counts)
    ensures forall e, x :: e in counts && e !in r && x in r ==> e.1 <= x.1
  {
    TopFive(counts)
  }

  /** `orders.slice(0, 5)`. */
  function RecentOrders(orders: seq<Order>): (r: seq<Order>)
    ensures |r| == if |orders| < 5 then |orders| else 5
    ensures forall i :: 0 <= i < |r| ==> r[i] == orders[i]
  {
    if |orders| < 5 then orders else orders[..5]
  }

  /** The amount a payment in status `status` adds; payments in any other status add 0. */
  function AmountIn(status: Option<string>): Payment -> int {
    (p: Payment) => if p.paymentStatus == status then p.amount.GetOr(0) else 0
  }

  /** A payment that is counted but has no amount: `payment.amount!` is undefined and the sum NaN. */
  predicate Unpriced(p: Payment, status: Option<string>) {
    p.paymentStatus == status && p.amount.None?
  }

  /** `payments.reduce(...)` over the payments whose status equals `status`, adding
      `payment.amount!`: the sum, or `None` for NaN once a counted payment has no amount. */
  function RevenueIn(payments: seq<Payment>, status: Option<string>): (r: Option<int>)
    ensures r.None? <==> exists p :: p in payments && Unpriced(p, status)
    ensures r.Some? ==> r.value == Sum(payments, AmountIn(status))
  {
    if payments == [] then Some(0)
    else
      var init := payments[..|payments| - 1];
      var last := payments[|payments| - 1];
      assert forall p :: p in payments <==> p in init || p == last;
      var prev := RevenueIn(init, status);
      if prev.None? || Unpriced(last, status) then None
      else Some(prev.value + AmountIn(status)(last))
  }

  /** The revenue as written: `PaymentStatus.COMPLETED` is not a member of the enum, so the
      comparison is with `undefined` and only payments without a status are counted. */
  function RevenueAsWritten(payments: seq<Payment>): (r: Option<int>)
    ensures r.None? <==> exists p :: p in payments && p.paymentStatus.None? && p.amount.None?
    ensures r.Some? ==> r.value == Sum(payments, AmountIn(None))
  {
    RevenueIn(payments, None)
  }

  /** The status of a successful payment. The `PaymentStatus` enum of `types/payment.ts`,
      declared to match the backend's, names it SUCCESS and has no COMPLETED member. */
  const Succeeded := "SUCCESS"

  /** The revenue as intended: the amounts of the successful payments, NaN when one of them
      has no amount. */
  function Revenue(payments: seq<Payment>): (r: Option<int>)
    ensures r.None? <==> exists p :: p in payments && p.paymentStatus == Some(Succeeded) && p.amount.None?
    ensures r.Some? ==> r.value == Sum(payments, AmountIn(Some(Succeeded)))
  {
    RevenueIn(payments, Some(Succeeded))
  }

  /** Without a successful payment the intended revenue is 0. */
  lemma {:induction false} NoSuccessNoRevenue(payments: seq<Payment>)
    requires forall p :: p in payments ==> p.paymentStatus != Some(Succeeded)
    ensures Revenue(payments) == Some(0)
  {
    if payments != [] {
      var init := payments[..|payments| - 1];
      assert forall p :: p in init ==> p in payments;
      NoSuccessNoRevenue(init);
    }
  }

  /** One successful payment of 25.00: the dashboard as written shows 0.00, as intended 25.00. */
  lemma SuccessfulPaymentNotCounted()
    ensures var ps := [Payment(Some(1), Some(7), Some(2500), Some(Succeeded), Some("STRIPE"))];
      RevenueAsWritten(ps) == Some(0) && Revenue(ps) == Some(2500)
  {
    var ps := [Payment(Some(1), Some(7), Some(2500), Some(Succeeded), Some("STRIPE"))];
    assert ps[..0] == [];
  }

  /** As written, one payment without status and amount turns the total into NaN. */
  lemma StatuslessPaymentSpoilsTotal()
    ensures RevenueAsWritten([Payment(Some(1), Some(7), None, None, None)]).None?
  {
    assert [Payment(Some(1), Some(7), None, None, None)][0] == Payment(Some(1), Some(7), None, None, None);
  }

  /** `$${totalRevenue.toFixed(2)}`; NaN prints as "NaN". */
  function RevenueText(r: Option<int>): (text: string)
    ensures |text| > 1 && text[0] == '$'
    ensures r.Some? ==> ParseNumber(text[1..]) == Some(r.value as real / 100.0)
    ensures r.None? ==> text == "$NaN"
  {
    if r.None? then "$NaN"
    else
      FixedCentsRoundTrip(r.value);
      assert ("$" + FixedCents(r.value))[1..] == FixedCents(r.value);
      "$" + FixedCents(r.value)
  }

  /** The statistics computed from the three listings and the active-customer count, with the
      revenue as written. */
  function StatsOf(orders: seq<Order>, menus: seq<MenuItem>, payments: seq<Payment>, active: Option<int>): (s: Stats)
    ensures s.totalOrders == |orders| && s.menu == |menus|
    ensures s.activeCustomers == active.GetOr(0)
    ensures s.recentOrders == RecentOrders(orders)
    ensures DistinctKeys(s.orderStatusDistribution) && Total(s.orderStatusDistribution) == |orders|
    ensures forall st :: Lookup(s.orderStatusDistribution, st) == Sum(orders, InStatus(st))
    ensures s.popularItems == PopularItems(ItemTally(AllItems(orders)))
    ensures s.totalRevenue == RevenueAsWritten(payments)
  {
    Stats(|orders|, RevenueAsWritten(payments), active.GetOr(0), |menus|, RecentOrders(orders),
          StatusCounts(orders), PopularItems(ItemTally(AllItems(orders))))
  }

  /** `/admin/orders/:id`. */
  function ViewOrderPath(orderId: string): (path: string)
    ensures |path| == 14 + |orderId| && path[..14] == "/admin/orders/" && path[14..] == orderId
  {
    "/admin/orders/" + orderId
  }

  class AdminDashboard {
    var stats: Stats

    constructor ()
      ensures stats == EmptyStats
    {
      stats := EmptyStats;
    }

    /** `fetchDashboardData`: the four requests in turn, the first that throws ending the load
        with its message; the statistics change only when orders, menus and payments all answer
        200 (the active-customer count is read whatever its status). */
    method FetchDashboardData(ordersReply: Call<OrderPage>, menusReply: Call<seq<MenuItem>>,
                              paymentsReply: Call<seq<Payment>>, activeReply: Call<int>) returns (fx: Effects)
      requires WellFormed(ordersReply) && WellFormed(menusReply) && WellFormed(paymentsReply)
      modifies this
      ensures fx.sent && fx.navigation.None?
      ensures ordersReply.Threw? ==> stats == old(stats) && fx.shown == Some(Caught(ordersReply.failure, FetchFailed))
      ensures ordersReply.Returned? && menusReply.Threw? ==>
        stats == old(stats) && fx.shown == Some(Caught(menusReply.failure, FetchFailed))
      ensures ordersReply.Returned? && menusReply.Returned? && paymentsReply.Threw? ==>
        stats == old(stats) && fx.shown == Some(Caught(paymentsReply.failure, FetchFailed))
      ensures ordersReply.Returned? && menusReply.Returned? && paymentsReply.Returned? && activeReply.Threw? ==>
        stats == old(stats) && fx.shown == Some(Caught(activeReply.failure, FetchFailed))
      ensures ordersReply.Returned? && menusReply.Returned? && paymentsReply.Returned? && activeReply.Returned? ==>
        fx.shown.None? &&
        if IsOk(ordersReply.response) && IsOk(menusReply.response) && IsOk(paymentsReply.response) then
          stats == StatsOf(ordersReply.response.data.value.content, menusReply.response.data.value,
                           paymentsReply.response.data.value, activeReply.response.data)
        else stats == old(stats)
    {
      if ordersReply.Threw? {
        return Effects(Some(Caught(ordersReply.failure, FetchFailed)), None, true);
      }
      if menusReply.Threw? {
        return Effects(Some(Caught(menusReply.failure, FetchFailed)), None, true);
      }
      if paymentsReply.Threw? {
        return Effects(Some(Caught(paymentsReply.failure, FetchFailed)), None, true);
      }
      if activeReply.Threw? {
        return Effects(Some(Caught(activeReply.failure, FetchFailed)), None, true);
      }
      var active := activeReply.response.data.GetOr(0);
      var o, m, p := ordersReply.response, menusReply.response, paymentsReply.response;
      if IsOk(o) && IsOk(m) && IsOk(p) {
        var orders := o.data.value.content;
        var itemCounts := ComputeItemCounts(orders);
        stats := Stats(|orders|, RevenueAsWritten(p.data.value), active, |m.data.value|, RecentOrders(orders),
                       StatusCounts(orders), PopularItems(itemCounts));
      }
      fx := Effects(None, None, true);
    }
  }
}
