/** The order and line-item tables.

    Each order draws a customer, a date in the last 540 days, a status and a number of
    line items; it samples that many distinct products, gives each a quantity, copies
    the product's price into the line item and accumulates the order's total.  Line-item
    ids come from one counter that runs across all orders.
 */
module Orders {
  import opened Schema
  import opened Randomness
  import opened Products

  /** The draws for one order: customer, date, status, number of items, the positions
      for `random.sample` and one quantity per line item. */
  datatype OrderDraw = OrderDraw(
    customer: nat, date: nat, status: nat, itemCount: nat, sample: seq<nat>,
    quantities: seq<nat>)

  /** Enough raw draws for the largest order. */
  predicate EnoughDraws(d: OrderDraw) {
    |d.sample| >= MAX_ORDER_ITEMS && |d.quantities| >= MAX_ORDER_ITEMS
  }

  /** `range(1, n + 1)`. */
  function IdRange(n: nat): (ids: seq<int>)
    ensures |ids| == n
    ensures forall i :: 0 <= i < n ==> ids[i] == i + 1
    ensures forall x :: x in ids ==> 1 <= x <= n
  {
    seq(n, i requires 0 <= i < n => i + 1)
  }

  /** `min(randint(MIN_ORDER_ITEMS, MAX_ORDER_ITEMS), NUM_PRODUCTS)`. */
  function ItemCount(d: OrderDraw, numProducts: nat): (k: nat)
    ensures Min(MIN_ORDER_ITEMS, numProducts) <= k <= Min(MAX_ORDER_ITEMS, numProducts)
  {
    Min(Pick(MIN_ORDER_ITEMS, MAX_ORDER_ITEMS, d.itemCount), numProducts)
  }

  /** The products an order gets: distinct product ids, as many as ItemCount says. */
  function SelectedProducts(d: OrderDraw, numProducts: nat): (ids: seq<int>)
    requires EnoughDraws(d)
    ensures |ids| == ItemCount(d, numProducts)
    ensures Distinct(ids)
    ensures forall t :: 0 <= t < |ids| ==> 1 <= ids[t] <= numProducts
  {
    var k := ItemCount(d, numProducts);
    SampleDistinct(IdRange(numProducts), k, d.sample);
    SampleFromPool(IdRange(numProducts), k, d.sample);
    var ids := Sample(IdRange(numProducts), k, d.sample);
    assert forall t :: 0 <= t < |ids| ==> ids[t] in IdRange(numProducts);
    ids
  }

  function LineTotal(item: OrderItem): int {
    item.priceCents * item.quantity
  }

  /** Sum of price x quantity over a list of line items. */
  function LinesTotal(lines: seq<OrderItem>): int {
    if lines == [] then 0
    else LinesTotal(lines[..|lines| - 1]) + LineTotal(lines[|lines| - 1])
  }

  /** `order_items_df[order_items_df['order_id'] == orderId]`: the line items of one
      order, in table order. */
  function ItemsOf(items: seq<OrderItem>, orderId: int): (lines: seq<OrderItem>)
    ensures |lines| <= |items|
  {
    if items == [] then []
    else (if items[0].orderId == orderId then [items[0]] else []) + ItemsOf(items[1..], orderId)
  }

  /** ItemsOf keeps exactly the rows of the table that carry the order id. */
  lemma {:induction false} ItemsOfMembers(items: seq<OrderItem>, orderId: int, x: OrderItem)
    ensures x in ItemsOf(items, orderId) <==> x in items && x.orderId == orderId
  {
    if items != [] {
      ItemsOfMembers(items[1..], orderId, x);
      assert items == [items[0]] + items[1..];
    }
  }

  /** `items['product_id'].tolist()`. */
  function ProductIds(lines: seq<OrderItem>): (ids: seq<int>)
    ensures |ids| == |lines|
    ensures forall t :: 0 <= t < |lines| ==> ids[t] == lines[t].productId
  {
    seq(|lines|, t requires 0 <= t < |lines| => lines[t].productId)
  }

  lemma {:induction false} ItemsOfAppend(a: seq<OrderItem>, b: seq<OrderItem>, orderId: int)
    ensures ItemsOf(a + b, orderId) == ItemsOf(a, orderId) + ItemsOf(b, orderId)
  {
    if a != [] {
      assert (a + b)[1..] == a[1..] + b;
      ItemsOfAppend(a[1..], b, orderId);
    } else {
      assert a + b == b;
    }
  }

  lemma {:induction false} ItemsOfAllMatch(lines: seq<OrderItem>, orderId: int)
    requires forall t :: 0 <= t < |lines| ==> lines[t].orderId == orderId
    ensures ItemsOf(lines, orderId) == lines
  {
    if lines != [] {
      ItemsOfAllMatch(lines[1..], orderId);
      assert lines == [lines[0]] + lines[1..];
    }
  }

  lemma {:induction false} ItemsOfNoMatch(items: seq<OrderItem>, orderId: int)
    requires forall j :: 0 <= j < |items| ==> items[j].orderId != orderId
    ensures ItemsOf(items, orderId) == []
  {
    if items != [] {
      ItemsOfNoMatch(items[1..], orderId);
    }
  }

  /** Each order row: id = position + 1, an existing customer, a date in the order
      window, a status from the status list. */
  ghost predicate OrderRowsValid(orders: seq<Order>, numCustomers: nat, today: int) {
    forall o :: 0 <= o < |orders| ==>
      && orders[o].orderId == o + 1
      && 1 <= orders[o].customerId <= numCustomers
      && today - ORDER_WINDOW_DAYS <= orders[o].orderDate <= today
      && orders[o].status in ORDER_STATUSES
  }

  /** A line item of an existing product, with a quantity in 1..5 and that product's price. */
  ghost predicate ItemFits(item: OrderItem, products: seq<Product>) {
    && 1 <= item.productId <= |products|
    && 1 <= item.quantity <= MAX_QUANTITY
    && item.priceCents == products[item.productId - 1].priceCents
  }

  /** Each line-item row: id = position + 1 (one counter for all orders), an existing order,
      and ItemFits. */
  ghost predicate ItemRowsValid(items: seq<OrderItem>, numOrders: nat, products: seq<Product>) {
    forall j :: 0 <= j < |items| ==>
      && items[j].orderItemId == j + 1
      && 1 <= items[j].orderId <= numOrders
      && ItemFits(items[j], products)
  }

  /** Line items are grouped by order, in order-id order. */
  ghost predicate ItemsGrouped(items: seq<OrderItem>) {
    forall j, k :: 0 <= j < k < |items| ==> items[j].orderId <= items[k].orderId
  }

  /** An order's own line items: between min(1, #products) and min(5, #products) of them,
      for distinct products, and the order's total is their sum of price x quantity. */
  ghost predicate OrderLinesValid(order: Order, lines: seq<OrderItem>, numProducts: nat) {
    && Min(MIN_ORDER_ITEMS, numProducts) <= |lines| <= Min(MAX_ORDER_ITEMS, numProducts)
    && Distinct(ProductIds(lines))
    && order.totalCents == LinesTotal(lines)
  }

  /** The cross-table consistency the order loop maintains. */
  ghost predicate OrdersConsistent(
    numCustomers: nat, products: seq<Product>, today: int, orders: seq<Order>,
    items: seq<OrderItem>)
  {
    && OrderRowsValid(orders, numCustomers, today)
    && ItemRowsValid(items, |orders|, products)
    && ItemsGrouped(items)
    && forall o :: 0 <= o < |orders| ==> OrderLinesValid(orders[o], ItemsOf(items, o + 1), |products|)
  }

  /** An order and its line items are the ones its draws produce (which takes at least
      one customer and enough draws). */
  ghost predicate OrderFollowsDraw(
    order: Order, lines: seq<OrderItem>, d: OrderDraw, numCustomers: nat, numProducts: nat,
    today: int)
  {
    && numCustomers >= 1 && EnoughDraws(d)
    && order.customerId == Pick(1, numCustomers, d.customer)
    && order.orderDate == Pick(today - ORDER_WINDOW_DAYS, today, d.date)
    && order.status == Choice(ORDER_STATUSES, d.status)
    && ProductIds(lines) == SelectedProducts(d, numProducts)
    && forall t :: 0 <= t < |lines| && t < |d.quantities| ==>
         lines[t].quantity == Pick(1, MAX_QUANTITY, d.quantities[t])
  }

  /** Appending the line items of a new order, whose id is above every earlier one,
      leaves the earlier orders' line items as they were; the new order's line items
      are exactly the appended ones. */
  lemma {:induction false} ItemsOfExtend(items: seq<OrderItem>, lines: seq<OrderItem>, orderId: int)
    requires forall j :: 0 <= j < |items| ==> items[j].orderId < orderId
    requires forall t :: 0 <= t < |lines| ==> lines[t].orderId == orderId
    ensures ItemsOf(items + lines, orderId) == lines
    ensures forall o :: o < orderId ==> ItemsOf(items + lines, o) == ItemsOf(items, o)
  {
    ItemsOfAppend(items, lines, orderId);
    ItemsOfNoMatch(items, orderId);
    ItemsOfAllMatch(lines, orderId);
    forall o | o < orderId ensures ItemsOf(items + lines, o) == ItemsOf(items, o) {
      ItemsOfAppend(items, lines, o);
      ItemsOfNoMatch(lines, o);
    }
  }

  lemma {:induction false} ExtendOrderRows(orders: seq<Order>, order: Order, numCustomers: nat, today: int)
    requires OrderRowsValid(orders, numCustomers, today)
    requires order.orderId == |orders| + 1
    requires 1 <= order.customerId <= numCustomers
    requires today - ORDER_WINDOW_DAYS <= order.orderDate <= today
    requires order.status in ORDER_STATUSES
    ensures OrderRowsValid(orders + [order], numCustomers, today)
  {
    var orders' := orders + [order];
    forall o | 0 <= o < |orders'|
      ensures orders'[o].orderId == o + 1 && 1 <= orders'[o].customerId <= numCustomers
      ensures today - ORDER_WINDOW_DAYS <= orders'[o].orderDate <= today
      ensures orders'[o].status in ORDER_STATUSES
    {
      if o < |orders| {
        assert orders'[o] == orders[o];
      }
    }
  }

  /** Appending line items numbered on from the table, all of the next order, keeps the
      line-item rows valid and grouped. */
  lemma {:induction false} ExtendItemRows(
    items: seq<OrderItem>, lines: seq<OrderItem>, numOrders: nat, products: seq<Product>)
    requires ItemRowsValid(items, numOrders, products)
    requires ItemsGrouped(items)
    requires forall t :: 0 <= t < |lines| ==>
      && lines[t].orderItemId == |items| + 1 + t
      && lines[t].orderId == numOrders + 1
      && ItemFits(lines[t], products)
    ensures ItemRowsValid(items + lines, numOrders + 1, products)
    ensures ItemsGrouped(items + lines)
  {
    var items' := items + lines;
    forall j | 0 <= j < |items'|
      ensures items'[j].orderItemId == j + 1 && 1 <= items'[j].orderId <= numOrders + 1
      ensures ItemFits(items'[j], products)
    {
      if j >= |items| {
        assert items'[j] == lines[j - |items|];
      } else {
        assert items'[j] == items[j];
      }
    }
    forall j, k | 0 <= j < k < |items'| ensures items'[j].orderId <= items'[k].orderId {
      if k < |items| {
        assert items'[j] == items[j] && items'[k] == items[k];
      } else if j < |items| {
        assert items'[j] == items[j] && items'[k] == lines[k - |items|];
      } else {
        assert items'[j] == lines[j - |items|] && items'[k] == lines[k - |items|];
      }
    }
  }

  /** Appending one order and its line items keeps the tables consistent, leaves the
      earlier orders' line items as they were, and the new order's line items are
      exactly the appended ones. */
  lemma {:induction false} ExtendOrders(
    numCustomers: nat, products: seq<Product>, today: int, orders: seq<Order>,
    items: seq<OrderItem>, order: Order, lines: seq<OrderItem>)
    requires OrdersConsistent(numCustomers, products, today, orders, items)
    requires order.orderId == |orders| + 1
    requires 1 <= order.customerId <= numCustomers
    requires today - ORDER_WINDOW_DAYS <= order.orderDate <= today
    requires order.status in ORDER_STATUSES
    requires forall t :: 0 <= t < |lines| ==>
      && lines[t].orderItemId == |items| + 1 + t
      && lines[t].orderId == order.orderId
      && ItemFits(lines[t], products)
    requires OrderLinesValid(order, lines, |products|)
    ensures OrdersConsistent(numCustomers, products, today, orders + [order], items + lines)
    ensures ItemsOf(items + lines, order.orderId) == lines
    ensures forall o :: 1 <= o <= |orders| ==> ItemsOf(items + lines, o) == ItemsOf(items, o)
  {
    var orders', items' := orders + [order], items + lines;
    ItemsOfExtend(items, lines, order.orderId);
    ExtendOrderRows(orders, order, numCustomers, today);
    ExtendItemRows(items, lines, |orders|, products);
    forall o | 0 <= o < |orders'|
      ensures OrderLinesValid(orders'[o], ItemsOf(items', o + 1), |products|)
    {
      if o < |orders| {
        assert orders'[o] == orders[o];
        assert ItemsOf(items', o + 1) == ItemsOf(items, o + 1);
      }
    }
  }

  /** The inner loop of one order (lines 101-115): one line item per selected product,
      ids continuing from `firstItemId`, and the running total. */
  method BuildOrderLines(
    products: seq<Product>, orderId: int, selected: seq<int>, quantities: seq<nat>,
    firstItemId: int)
    returns (lines: seq<OrderItem>, total: int, nextItemId: int)
    requires ProductIdsSequential(products)
    requires forall t :: 0 <= t < |selected| ==> 1 <= selected[t] <= |products|
    requires |quantities| >= |selected|
    ensures ProductIds(lines) == selected
    ensures forall t :: 0 <= t < |lines| ==>
      && lines[t].orderItemId == firstItemId + t
      && lines[t].orderId == orderId
      && lines[t].quantity == Pick(1, MAX_QUANTITY, quantities[t])
      && ItemFits(lines[t], products)
    ensures total == LinesTotal(lines)
    ensures nextItemId == firstItemId + |lines|
  {
    lines, total, nextItemId := [], 0, firstItemId;
    for t := 0 to |selected|
      invariant |lines| == t && nextItemId == firstItemId + t
      invariant forall u :: 0 <= u < t ==>
        && lines[u].orderItemId == firstItemId + u
        && lines[u].orderId == orderId
        && lines[u].productId == selected[u]
        && lines[u].quantity == Pick(1, MAX_QUANTITY, quantities[u])
        && ItemFits(lines[u], products)
      invariant total == LinesTotal(lines)
    {
      var productId := selected[t];
      var quantity := Pick(1, MAX_QUANTITY, quantities[t]);
      var row := FirstRow(products, ProductKey, productId);
      FirstRowOfSequential(products, ProductKey, productId);
      var price := products[row.value].priceCents;
      total := total + price * quantity;
      var item := OrderItem(nextItemId, orderId, productId, quantity, price);
      assert (lines + [item])[..t] == lines;
      lines := lines + [item];
      nextItemId := nextItemId + 1;
    }
  }

  /** The state of the order loop after |orders| orders: consistent tables, the item
      counter one past the last item, and every order the one its draws produce. */
  ghost predicate OrdersGenerated(
    numCustomers: nat, products: seq<Product>, today: int, draws: seq<OrderDraw>,
    orders: seq<Order>, items: seq<OrderItem>, nextItemId: int)
  {
    && |orders| <= |draws|
    && nextItemId == |items| + 1
    && OrdersConsistent(numCustomers, products, today, orders, items)
    && forall o :: 0 <= o < |orders| ==>
         OrderFollowsDraw(orders[o], ItemsOf(items, o + 1), draws[o], numCustomers, |products|, today)
  }

  /** One step of the order loop: the order drawn next, with the line items the inner
      loop built for it, keeps the loop state. */
  lemma {:induction false} ExtendGenerated(
    numCustomers: nat, products: seq<Product>, today: int, draws: seq<OrderDraw>,
    orders: seq<Order>, items: seq<OrderItem>, nextItemId: int,
    lines: seq<OrderItem>, total: int, next: int)
    requires OrdersGenerated(numCustomers, products, today, draws, orders, items, nextItemId)
    requires |orders| < |draws| && numCustomers >= 1 && EnoughDraws(draws[|orders|])
    requires ProductIds(lines) == SelectedProducts(draws[|orders|], |products|)
    requires forall t :: 0 <= t < |lines| ==>
      && lines[t].orderItemId == nextItemId + t
      && lines[t].orderId == |orders| + 1
      && lines[t].quantity == Pick(1, MAX_QUANTITY, draws[|orders|].quantities[t])
      && ItemFits(lines[t], products)
    requires total == LinesTotal(lines)
    requires next == nextItemId + |lines|
    ensures var d := draws[|orders|];
      OrdersGenerated(numCustomers, products, today, draws,
        orders + [Order(|orders| + 1, Pick(1, numCustomers, d.customer),
                        Pick(today - ORDER_WINDOW_DAYS, today, d.date), total,
                        Choice(ORDER_STATUSES, d.status))],
        items + lines, next)
  {
    var d := draws[|orders|];
    var order := Order(|orders| + 1, Pick(1, numCustomers, d.customer),
                       Pick(today - ORDER_WINDOW_DAYS, today, d.date), total,
                       Choice(ORDER_STATUSES, d.status));
    assert |lines| == |SelectedProducts(d, |products|)|;
    assert OrderLinesValid(order, lines, |products|);
    assert OrderFollowsDraw(order, lines, d, numCustomers, |products|, today);
    ExtendOrders(numCustomers, products, today, orders, items, order, lines);
    ExtendFollows(numCustomers, |products|, today, draws, orders, items, order, lines);
  }

  /** Appending an order that follows its draw, with line items that leave the earlier
      orders' line items as they were, keeps every order following its draw. */
  lemma {:induction false} ExtendFollows(
    numCustomers: nat, numProducts: nat, today: int, draws: seq<OrderDraw>,
    orders: seq<Order>, items: seq<OrderItem>, order: Order, lines: seq<OrderItem>)
    requires |orders| < |draws|
    requires forall o :: 0 <= o < |orders| ==>
      OrderFollowsDraw(orders[o], ItemsOf(items, o + 1), draws[o], numCustomers, numProducts, today)
    requires OrderFollowsDraw(order, lines, draws[|orders|], numCustomers, numProducts, today)
    requires ItemsOf(items + lines, |orders| + 1) == lines
    requires forall o :: 1 <= o <= |orders| ==> ItemsOf(items + lines, o) == ItemsOf(items, o)
    ensures forall o :: 0 <= o <= |orders| ==>
      OrderFollowsDraw((orders + [order])[o], ItemsOf(items + lines, o + 1), draws[o],
                       numCustomers, numProducts, today)
  {
    var orders', items' := orders + [order], items + lines;
    forall o | 0 <= o <= |orders|
      ensures OrderFollowsDraw(orders'[o], ItemsOf(items', o + 1), draws[o], numCustomers, numProducts, today)
    {
      if o < |orders| {
        assert orders'[o] == orders[o];
        assert ItemsOf(items', o + 1) == ItemsOf(items, o + 1);
      } else {
        assert orders'[o] == order;
      }
    }
  }


  /** The order loop (lines 84-123): orders 1..numOrders with their line items. */
  method GenerateOrders(
    numCustomers: nat, products: seq<Product>, today: int, numOrders: nat,
    draws: seq<OrderDraw>)
    returns (orders: seq<Order>, items: seq<OrderItem>, nextItemId: int)
    requires numOrders > 0 ==> numCustomers >= 1
    requires ProductIdsSequential(products)
    requires |draws| == numOrders
    requires forall o :: 0 <= o < numOrders ==> EnoughDraws(draws[o])
    ensures |orders| == numOrders
    ensures OrdersConsistent(numCustomers, products, today, orders, items)
    ensures nextItemId == |items| + 1
    ensures forall o :: 0 <= o < numOrders ==>
      OrderFollowsDraw(orders[o], ItemsOf(items, o + 1), draws[o], numCustomers, |products|, today)
  {
    orders, items, nextItemId := [], [], 1;
    var numProducts := |products|;
    var i := 1;
    while i <= numOrders
      invariant 1 <= i <= numOrders + 1
      invariant |orders| == i - 1
      invariant OrdersGenerated(numCustomers, products, today, draws, orders, items, nextItemId)
    {
      var d := draws[i - 1];
      var customerId := Pick(1, numCustomers, d.customer);
      var orderDate := Pick(today - ORDER_WINDOW_DAYS, today, d.date);
      var status := Choice(ORDER_STATUSES, d.status);
      var selected := SelectedProducts(d, numProducts);
      var lines, total, next := BuildOrderLines(products, i, selected, d.quantities, nextItemId);
      ExtendGenerated(numCustomers, products, today, draws, orders, items, nextItemId, lines, total, next);
      orders, items, nextItemId := orders + [Order(i, customerId, orderDate, total, status)], items + lines, next;
      i := i + 1;
    }
  }

  // Whole-table facts about consistent order and line-item tables.

  /** Number of line items of orders 1..n. */
  function LineCounts(items: seq<OrderItem>, n: nat): nat {
    if n == 0 then 0 else LineCounts(items, n - 1) + |ItemsOf(items, n)|
  }

  /** Sum over orders 1..n of the line totals of each order's own line items. */
  function OrderRevenues(items: seq<OrderItem>, n: nat): int {
    if n == 0 then 0 else OrderRevenues(items, n - 1) + LinesTotal(ItemsOf(items, n))
  }

  /** Sum of the orders' total_amount column. */
  function OrdersTotal(orders: seq<Order>): int {
    if orders == [] then 0
    else OrdersTotal(orders[..|orders| - 1]) + orders[|orders| - 1].totalCents
  }

  lemma {:induction false} PerOrderSnoc(items: seq<OrderItem>, x: OrderItem, n: nat)
    ensures LineCounts(items + [x], n) == LineCounts(items, n) + (if 1 <= x.orderId <= n then 1 else 0)
    ensures OrderRevenues(items + [x], n) ==
      OrderRevenues(items, n) + (if 1 <= x.orderId <= n then LineTotal(x) else 0)
  {
    if n > 0 {
      PerOrderSnoc(items, x, n - 1);
      ItemsOfAppend(items, [x], n);
      assert [x][1..] == [];
      var own := ItemsOf(items, n);
      if x.orderId == n {
        assert (own + [x])[..|own|] == own;
      } else {
        assert own + [] == own;
      }
    }
  }

  /** When every line item belongs to one of the orders 1..n, the orders' own line items
      add up to the whole table: in number and in price x quantity. */
  lemma {:induction false} LinesPartition(items: seq<OrderItem>, n: nat)
    requires forall j :: 0 <= j < |items| ==> 1 <= items[j].orderId <= n
    ensures LineCounts(items, n) == |items|
    ensures OrderRevenues(items, n) == LinesTotal(items)
  {
    if items == [] {
      ZeroPerOrder(n);
    } else {
      var init, x := items[..|items| - 1], items[|items| - 1];
      assert items == init + [x];
      LinesPartition(init, n);
      PerOrderSnoc(init, x, n);
    }
  }

  lemma {:induction false} ZeroPerOrder(n: nat)
    ensures LineCounts([], n) == 0 && OrderRevenues([], n) == 0
  {
    if n > 0 {
      ZeroPerOrder(n - 1);
    }
  }

  lemma {:induction false} LineCountsBounds(items: seq<OrderItem>, n: nat, lo: int, hi: int)
    requires forall o :: 1 <= o <= n ==> lo <= |ItemsOf(items, o)| <= hi
    ensures n * lo <= LineCounts(items, n) <= n * hi
  {
    if n > 0 {
      LineCountsBounds(items, n - 1, lo, hi);
      assert n * lo == (n - 1) * lo + lo && n * hi == (n - 1) * hi + hi;
    }
  }

  /** The line-item table has between #orders x min(1, #products) and
      #orders x min(5, #products) rows. */
  lemma {:induction false} LineItemCountBounds(
    numCustomers: nat, products: seq<Product>, today: int, orders: seq<Order>,
    items: seq<OrderItem>)
    requires OrdersConsistent(numCustomers, products, today, orders, items)
    ensures |orders| * Min(MIN_ORDER_ITEMS, |products|) <= |items|
    ensures |items| <= |orders| * Min(MAX_ORDER_ITEMS, |products|)
  {
    var n := |orders|;
    LinesPartition(items, n);
    forall o | 1 <= o <= n
      ensures Min(MIN_ORDER_ITEMS, |products|) <= |ItemsOf(items, o)| <= Min(MAX_ORDER_ITEMS, |products|)
    {
      assert OrderLinesValid(orders[o - 1], ItemsOf(items, o), |products|);
    }
    LineCountsBounds(items, n, Min(MIN_ORDER_ITEMS, |products|), Min(MAX_ORDER_ITEMS, |products|));
  }

  /** The orders' totals add up to the sum of price x quantity over the whole line-item
      table: no line item is counted twice or left out. */
  lemma {:induction false} RevenueMatchesLineItems(
    numCustomers: nat, products: seq<Product>, today: int, orders: seq<Order>,
    items: seq<OrderItem>)
    requires OrdersConsistent(numCustomers, products, today, orders, items)
    ensures OrdersTotal(orders) == LinesTotal(items)
  {
    LinesPartition(items, |orders|);
    OrdersTotalPrefix(orders, items, |products|, |orders|);
    assert orders[..|orders|] == orders;
  }

  lemma {:induction false} OrdersTotalPrefix(
    orders: seq<Order>, items: seq<OrderItem>, numProducts: nat, k: nat)
    requires k <= |orders|
    requires forall o :: 0 <= o < |orders| ==> OrderLinesValid(orders[o], ItemsOf(items, o + 1), numProducts)
    ensures OrdersTotal(orders[..k]) == OrderRevenues(items, k)
  {
    if k > 0 {
      OrdersTotalPrefix(orders, items, numProducts, k - 1);
      assert orders[..k][..k - 1] == orders[..k - 1];
      assert OrderLinesValid(orders[k - 1], ItemsOf(items, k), numProducts);
    }
  }
}
