/** One run of the generator: customers, then products, then orders with their line
    items, then the order-linked reviews and the standalone reviews, which share one
    review-id counter.  A run with no customer or no product ends in an exception. */
module Pipeline {
  import opened Schema
  import opened Randomness
  import opened Customers
  import opened Products
  import opened Orders
  import opened Reviews

  /** The five tables the run writes out. */
  datatype Dataset = Dataset(
    customers: seq<Customer>, products: seq<Product>, orders: seq<Order>,
    orderItems: seq<OrderItem>, reviews: seq<Review>)

  /** Everything the run draws from `random` and Faker, table by table. */
  datatype Draws = Draws(
    customers: seq<CustomerDraw>, products: seq<ProductDraw>, orders: seq<OrderDraw>,
    linked: seq<LinkedDraw>, standalone: seq<StandaloneDraw>)

  /** How a run ends early.  EmptyIdRange: `random.randint(1, 0)` raises ValueError, for
      an order's customer (line 91) or a standalone candidate (lines 184-185).
      MissingColumn: with no product no line item is written, the line-item table has no
      `order_id` column, and the first reviewed order's lookup raises KeyError (line 147). */
  datatype GenError = EmptyIdRange | MissingColumn

  datatype Result<T> = Ok(value: T) | Err(error: GenError)

  /** One draw record per row or candidate the run considers. */
  predicate DrawsFit(cfg: Config, draws: Draws) {
    && |draws.customers| == cfg.numCustomers
    && |draws.products| == cfg.numProducts
    && |draws.orders| == cfg.numOrders
    && (forall o :: 0 <= o < |draws.orders| ==> EnoughDraws(draws.orders[o]))
    && |draws.linked| == cfg.numOrders
    && (forall o :: 0 <= o < |draws.linked| ==> EnoughReviewDraws(draws.linked[o]))
    && |draws.standalone| == STANDALONE_REVIEWS
  }

  /** The invariants of a generated data set.  The first `linked` reviews are the
      order-linked ones, `origin` giving the order each was written for; the rest are
      standalone. */
  ghost predicate DatasetValid(
    cfg: Config, cal: Calendar, ds: Dataset, linked: nat, origin: seq<int>)
  {
    && CustomersValid(ds.customers, cfg.numCustomers, cal)
    && ProductsValid(ds.products, cfg.numProducts)
    && |ds.orders| == cfg.numOrders
    && OrdersConsistent(cfg.numCustomers, ds.products, cal.today, ds.orders, ds.orderItems)
    && linked <= |ds.reviews|
    && ReviewIdsSequential(ds.reviews)
    && LinkedReviewsValid(ds.orders, ds.orderItems, ds.reviews[..linked], origin)
    && StandaloneValid(ds.reviews, linked, cfg.numProducts, cfg.numCustomers, cal.today)
  }

  /** The whole script (lines 34-209) on the given draws. */
  method GenerateDataset(cfg: Config, cal: Calendar, draws: Draws)
    returns (r: Result<Dataset>, ghost linked: nat, ghost origin: seq<int>)
    requires cal.Valid() && DrawsFit(cfg, draws)
    ensures r.Err? <==> cfg.numCustomers == 0 || cfg.numProducts == 0
    ensures r == Err(MissingColumn) <==>
      && cfg.numCustomers >= 1 && cfg.numProducts == 0
      && exists o :: 0 <= o < cfg.numOrders && draws.linked[o].reviewed
    ensures r.Ok? ==> DatasetValid(cfg, cal, r.value, linked, origin)
    ensures r.Ok? ==> linked <= MAX_REVIEWS_PER_ORDER * cfg.numOrders
    ensures r.Ok? ==> |r.value.reviews| <= linked + STANDALONE_REVIEWS
    ensures r.Ok? ==> forall i :: 0 <= i < cfg.numCustomers ==>
      r.value.customers[i] == NewCustomer(i + 1, draws.customers[i], cal)
    ensures r.Ok? ==> forall i :: 0 <= i < cfg.numProducts ==>
      r.value.products[i] == NewProduct(i + 1, draws.products[i])
    ensures r.Ok? ==> forall o :: 0 <= o < cfg.numOrders ==>
      OrderFollowsDraw(r.value.orders[o], ItemsOf(r.value.orderItems, o + 1), draws.orders[o],
                       cfg.numCustomers, cfg.numProducts, cal.today)
    ensures r.Ok? ==> CountsFollowDraws(draws.linked, origin, cfg.numOrders)
    ensures r.Ok? ==> LinkedFollowDraws(r.value.orders, r.value.orderItems, draws.linked,
                                        r.value.reviews[..linked], origin, cfg.numOrders)
    ensures r.Ok? ==> r.value.reviews == StandaloneReviews(
      r.value.reviews[..linked], draws.standalone, cfg.numProducts, cfg.numCustomers, cal.today)
  {
    linked, origin := 0, [];
    var customers := GenerateCustomers(cfg.numCustomers, cal, draws.customers);
    var products := GenerateProducts(cfg.numProducts, draws.products);
    if cfg.numOrders > 0 && cfg.numCustomers == 0 {
      // the first order's customer draw, randint(1, 0)
      return Err(EmptyIdRange), linked, origin;
    }
    var orders, items, _ := GenerateOrders(
      cfg.numCustomers, products, cal.today, cfg.numOrders, draws.orders);
    if cfg.numCustomers == 0 || cfg.numProducts == 0 {
      // no order has line items (and with no customer there is no order): the first
      // reviewed order fails on the line-item lookup; failing that, the first standalone
      // candidate fails on randint(1, 0)
      var o := 0;
      while o < cfg.numOrders && !draws.linked[o].reviewed
        invariant 0 <= o <= cfg.numOrders
        invariant forall p :: 0 <= p < o ==> !draws.linked[p].reviewed
      {
        o := o + 1;
      }
      if o < cfg.numOrders {
        return Err(MissingColumn), linked, origin;
      }
      return Err(EmptyIdRange), linked, origin;
    }
    forall orderId | 1 <= orderId <= cfg.numOrders ensures |ItemsOf(items, orderId)| >= 1 {
      assert OrderLinesValid(orders[orderId - 1], ItemsOf(items, orderId), |products|);
    }
    var reviews, nextReviewId;
    reviews, nextReviewId, origin := GenerateOrderReviews(orders, items, draws.linked);
    linked := |reviews|;
    var all, _ := AddStandaloneReviews(
      reviews, nextReviewId, cfg.numProducts, cfg.numCustomers, cal.today, draws.standalone);
    StandaloneReviewsValid(
      reviews, |reviews|, draws.standalone, cfg.numProducts, cfg.numCustomers, cal.today);
    assert all[..linked] == reviews;
    r := Ok(Dataset(customers, products, orders, items, all));
  }

  // Properties of every generated data set.

  /** Every foreign key resolves: orders name an existing customer, line items an
      existing order and product, reviews an existing product and customer. */
  lemma {:induction false} ForeignKeysResolve(cfg: Config, cal: Calendar, ds: Dataset, linked: nat, origin: seq<int>)
    requires DatasetValid(cfg, cal, ds, linked, origin)
    ensures forall o :: 0 <= o < |ds.orders| ==> 1 <= ds.orders[o].customerId <= |ds.customers|
    ensures forall j :: 0 <= j < |ds.orderItems| ==>
      1 <= ds.orderItems[j].orderId <= |ds.orders| && 1 <= ds.orderItems[j].productId <= |ds.products|
    ensures forall r :: 0 <= r < |ds.reviews| ==>
      1 <= ds.reviews[r].productId <= |ds.products| && 1 <= ds.reviews[r].customerId <= |ds.customers|
  {
    forall r | 0 <= r < |ds.reviews|
      ensures 1 <= ds.reviews[r].productId <= |ds.products|
      ensures 1 <= ds.reviews[r].customerId <= |ds.customers|
    {
      if r < linked {
        var j := ReviewedLine(cfg, cal, ds, linked, origin, r);
        assert ItemFits(ds.orderItems[j], ds.products);
      }
    }
  }

  /** An order-linked review is of a product on the line items of the order it was
      written for, by that order's customer, at most 30 days after the order; returns
      the position of that line item. */
  lemma {:induction false} ReviewedLine(
    cfg: Config, cal: Calendar, ds: Dataset, linked: nat, origin: seq<int>, r: nat)
    returns (j: nat)
    requires DatasetValid(cfg, cal, ds, linked, origin)
    requires r < linked
    ensures j < |ds.orderItems| && ds.orderItems[j].orderId == origin[r]
    ensures BoughtBefore(ds.orderItems[j], ds.orders, ds.reviews[r])
  {
    var linkedReviews := ds.reviews[..linked];
    assert LinkedRows(ds.orders, ds.orderItems, linkedReviews, origin);
    j := LinkedReviewLine(ds.orders, ds.orderItems, linkedReviews, origin, r);
    assert linkedReviews[r] == ds.reviews[r];
  }

  /** With the script's own counts (100 customers, 50 products, 200 orders) the tables
      have exactly those many rows and between 200 and 1000 line items. */
  lemma {:induction false} DefaultRunSizes(cal: Calendar, ds: Dataset, linked: nat, origin: seq<int>)
    requires DatasetValid(DEFAULT_CONFIG, cal, ds, linked, origin)
    ensures |ds.customers| == 100 && |ds.products| == 50 && |ds.orders| == 200
    ensures 200 <= |ds.orderItems| <= 1000
  {
    LineItemCountBounds(NUM_CUSTOMERS, ds.products, cal.today, ds.orders, ds.orderItems);
  }

  /** Every order-linked review is written by a customer who ordered that product, on or
      after the order date and at most 30 days later. */
  lemma {:induction false} AuthorBoughtProduct(
    cfg: Config, cal: Calendar, ds: Dataset, linked: nat, origin: seq<int>, r: nat)
    requires DatasetValid(cfg, cal, ds, linked, origin)
    requires r < linked
    ensures exists j :: 0 <= j < |ds.orderItems| && BoughtBefore(ds.orderItems[j], ds.orders, ds.reviews[r])
  {
    var j := ReviewedLine(cfg, cal, ds, linked, origin, r);
  }

  /** Line item `item` is the review's product, on an order of the review's author placed
      at most 30 days before the review. */
  ghost predicate BoughtBefore(item: OrderItem, orders: seq<Order>, review: Review) {
    && 1 <= item.orderId <= |orders|
    && item.productId == review.productId
    && orders[item.orderId - 1].customerId == review.customerId
    && orders[item.orderId - 1].orderDate <= review.reviewDate
    && review.reviewDate <= orders[item.orderId - 1].orderDate + REVIEW_WINDOW_DAYS
  }

  /** The reviews written for one order are of different products (an order never holds
      the same product twice). */
  lemma {:induction false} LinkedReviewsDistinct(
    cfg: Config, cal: Calendar, ds: Dataset, linked: nat, origin: seq<int>, r1: nat, r2: nat)
    requires DatasetValid(cfg, cal, ds, linked, origin)
    requires r1 < r2 < linked && origin[r1] == origin[r2]
    ensures ds.reviews[r1].productId != ds.reviews[r2].productId
  {
    var linkedReviews := ds.reviews[..linked];
    assert ReviewOf(linkedReviews[r1], origin[r1], ds.orders, ds.orderItems);
    assert OrderLinesValid(ds.orders[origin[r1] - 1], ItemsOf(ds.orderItems, origin[r1]), |ds.products|);
    assert linkedReviews[r1] == ds.reviews[r1] && linkedReviews[r2] == ds.reviews[r2];
  }

  /** No review is dated before the order window or more than 30 days after the run. */
  lemma {:induction false} ReviewDatesBounded(
    cfg: Config, cal: Calendar, ds: Dataset, linked: nat, origin: seq<int>)
    requires DatasetValid(cfg, cal, ds, linked, origin)
    ensures forall r :: 0 <= r < |ds.reviews| ==>
      cal.today - ORDER_WINDOW_DAYS <= ds.reviews[r].reviewDate <= cal.today + REVIEW_WINDOW_DAYS
  {
    forall r | 0 <= r < |ds.reviews|
      ensures cal.today - ORDER_WINDOW_DAYS <= ds.reviews[r].reviewDate <= cal.today + REVIEW_WINDOW_DAYS
    {
      if r < linked {
        assert ReviewOf(ds.reviews[..linked][r], origin[r], ds.orders, ds.orderItems);
        assert ds.reviews[..linked][r] == ds.reviews[r];
      }
    }
  }

  /** A standalone review never repeats the (product, customer) pair of any review before
      it, order-linked or standalone. */
  lemma {:induction false} StandalonePairsNew(
    cfg: Config, cal: Calendar, ds: Dataset, linked: nat, origin: seq<int>, a: nat, b: nat)
    requires DatasetValid(cfg, cal, ds, linked, origin)
    requires a < b < |ds.reviews| && linked <= b
    ensures ds.reviews[a].productId != ds.reviews[b].productId
         || ds.reviews[a].customerId != ds.reviews[b].customerId
  {
    assert ds.reviews[..b][a] == ds.reviews[a];
  }
}
