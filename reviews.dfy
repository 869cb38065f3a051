/** The review table, filled in two phases that share one review-id counter.

    Order-linked phase: some orders get 1 or 2 reviews (never more than the order has
    products), of distinct products taken from that order, by the order's customer,
    dated within 30 days after the order.

    Standalone phase: 20 candidate (product, customer) pairs drawn over the whole id
    ranges; a candidate becomes a review only if no earlier review, linked or standalone,
    has the same pair.
 */
module Reviews {
  import opened Schema
  import opened Randomness
  import opened Orders

  /** The draws for one review: date, rating, requested word count, Faker's sentence. */
  datatype ReviewDraw = ReviewDraw(date: nat, rating: nat, words: nat, sentence: string)

  /** The draws of the order-linked phase for one order: whether it is reviewed
      (`random.random() < REVIEW_PROBABILITY`), how many of its products, the positions
      for `random.sample`, and one ReviewDraw per review. */
  datatype LinkedDraw = LinkedDraw(
    reviewed: bool, count: nat, sample: seq<nat>, reviews: seq<ReviewDraw>)

  /** The draws for one standalone candidate. */
  datatype StandaloneDraw = StandaloneDraw(product: nat, customer: nat, review: ReviewDraw)

  const MAX_REVIEWS_PER_ORDER: nat := 2

  predicate EnoughReviewDraws(d: LinkedDraw) {
    |d.sample| >= MAX_REVIEWS_PER_ORDER && |d.reviews| >= MAX_REVIEWS_PER_ORDER
  }

  /** The word-count rule: [5, 15] for ratings 4 and 5, [3, 10] for 3, [5, 12] below. */
  predicate CommentFits(rating: int, words: int) {
    && (rating >= 4 ==> 5 <= words <= 15)
    && (rating == 3 ==> 3 <= words <= 10)
    && (rating < 3 ==> 5 <= words <= 12)
  }

  /** The comment of a review with this rating (one definition for both phases). */
  function CommentFor(rating: int, d: ReviewDraw): (c: Comment)
    ensures CommentFits(rating, c.nbWords)
    ensures c.text == d.sentence
  {
    if rating >= 4 then Sentence(Pick(5, 15, d.words), d.sentence)
    else if rating == 3 then Sentence(Pick(3, 10, d.words), d.sentence)
    else Sentence(Pick(5, 12, d.words), d.sentence)
  }

  /** Every word count the rule allows for a rating is requested by some draw. */
  lemma {:induction false} CommentForReaches(rating: int, words: int)
    requires CommentFits(rating, words)
    ensures exists d: ReviewDraw :: CommentFor(rating, d).nbWords == words
  {
    var lo := if rating == 3 then 3 else 5;
    assert CommentFor(rating, ReviewDraw(0, 0, words - lo, "")).nbWords == words;
  }

  /** A rating from 1..5 and a comment that follows the word-count rule. */
  predicate ReviewFits(r: Review) {
    1 <= r.rating <= 5 && CommentFits(r.rating, r.comment.nbWords)
  }

  /** The row appended for a review, dated between `first` and `last`. */
  function NewReview(
    id: int, productId: int, customerId: int, d: ReviewDraw, first: int, last: int): (r: Review)
    requires first <= last
    ensures r.reviewId == id && r.productId == productId && r.customerId == customerId
    ensures first <= r.reviewDate <= last
    ensures ReviewFits(r) && r.comment.text == d.sentence
  {
    var rating := Pick(1, 5, d.rating);
    Review(id, productId, customerId, rating, CommentFor(rating, d), Pick(first, last, d.date))
  }

  /** Review ids are 1, 2, 3, ... in table order. */
  ghost predicate ReviewIdsSequential(reviews: seq<Review>) {
    forall r :: 0 <= r < |reviews| ==> reviews[r].reviewId == r + 1
  }

  // ------------------------------------------------------------------
  // Order-linked phase

  /** A review of one of the order's products by the order's customer, dated within 30
      days after the order. */
  ghost predicate LinkedTo(review: Review, order: Order, lines: seq<OrderItem>) {
    && review.customerId == order.customerId
    && review.productId in ProductIds(lines)
    && order.orderDate <= review.reviewDate <= order.orderDate + REVIEW_WINDOW_DAYS
    && ReviewFits(review)
  }

  /** The number of reviews written for order `orderId`. */
  function ReviewsOf(origin: seq<int>, orderId: int): nat {
    multiset(origin)[orderId]
  }

  /** Each review is a valid review of its origin order. */
  ghost predicate LinkedRows(
    orders: seq<Order>, items: seq<OrderItem>, reviews: seq<Review>, origin: seq<int>)
  {
    && |origin| == |reviews|
    && forall r :: 0 <= r < |reviews| ==> ReviewOf(reviews[r], origin[r], orders, items)
  }

  /** `review` is a valid review of order `orderId`. */
  ghost predicate ReviewOf(review: Review, orderId: int, orders: seq<Order>, items: seq<OrderItem>) {
    1 <= orderId <= |orders| && LinkedTo(review, orders[orderId - 1], ItemsOf(items, orderId))
  }

  /** Reviews come grouped by order, in order-id order. */
  ghost predicate OriginSorted(origin: seq<int>) {
    forall r1, r2 :: 0 <= r1 < r2 < |origin| ==> origin[r1] <= origin[r2]
  }

  /** Two reviews of the same order are of different products whenever the order's
      products are distinct. */
  ghost predicate LinkedDistinct(items: seq<OrderItem>, reviews: seq<Review>, origin: seq<int>)
    requires |origin| == |reviews|
  {
    forall r1, r2 :: 0 <= r1 < r2 < |reviews| && origin[r1] == origin[r2] ==>
      (Distinct(ProductIds(ItemsOf(items, origin[r1]))) ==>
         reviews[r1].productId != reviews[r2].productId)
  }

  /** No order has more than min(2, #items) reviews. */
  ghost predicate LinkedCounts(orders: seq<Order>, items: seq<OrderItem>, origin: seq<int>) {
    forall orderId :: 1 <= orderId <= |orders| ==>
      ReviewsOf(origin, orderId) <= Min(MAX_REVIEWS_PER_ORDER, |ItemsOf(items, orderId)|)
  }

  /** `origin[r]` is the id of the order review r was written for. */
  ghost predicate LinkedReviewsValid(
    orders: seq<Order>, items: seq<OrderItem>, reviews: seq<Review>, origin: seq<int>)
  {
    && LinkedRows(orders, items, reviews, origin)
    && OriginSorted(origin)
    && LinkedDistinct(items, reviews, origin)
    && LinkedCounts(orders, items, origin)
  }

  function Repeat(v: int, n: nat): (s: seq<int>)
    ensures |s| == n && forall i :: 0 <= i < n ==> s[i] == v
  {
    seq(n, _ => v)
  }

  lemma {:induction false} RepeatCount(v: int, n: nat, w: int)
    ensures multiset(Repeat(v, n))[w] == if w == v then n else 0
  {
    if n > 0 {
      RepeatCount(v, n - 1, w);
      assert Repeat(v, n) == Repeat(v, n - 1) + [v];
    }
  }

  /** Appending `n` reviews of order `orderId` adds `n` to its count only. */
  lemma {:induction false} ReviewsOfAppend(origin: seq<int>, orderId: int, n: nat, w: int)
    ensures ReviewsOf(origin + Repeat(orderId, n), w)
         == ReviewsOf(origin, w) + (if w == orderId then n else 0)
  {
    RepeatCount(orderId, n, w);
  }

  /** Appending the reviews of the next reviewed order keeps the linked reviews valid;
      that order now has exactly the appended number of reviews, the others keep theirs. */
  lemma {:induction false} ExtendLinked(
    orders: seq<Order>, items: seq<OrderItem>, reviews: seq<Review>, origin: seq<int>,
    orderId: int, batch: seq<Review>)
    requires LinkedReviewsValid(orders, items, reviews, origin)
    requires 1 <= orderId <= |orders|
    requires forall r :: 0 <= r < |origin| ==> origin[r] < orderId
    requires |batch| <= Min(MAX_REVIEWS_PER_ORDER, |ItemsOf(items, orderId)|)
    requires forall t :: 0 <= t < |batch| ==>
      LinkedTo(batch[t], orders[orderId - 1], ItemsOf(items, orderId))
    requires Distinct(ProductIds(ItemsOf(items, orderId))) ==>
      forall t, u :: 0 <= t < u < |batch| ==> batch[t].productId != batch[u].productId
    ensures LinkedReviewsValid(orders, items, reviews + batch, origin + Repeat(orderId, |batch|))
    ensures forall w ::
      ReviewsOf(origin + Repeat(orderId, |batch|), w)
        == ReviewsOf(origin, w) + (if w == orderId then |batch| else 0)
  {
    var origin' := origin + Repeat(orderId, |batch|);
    forall w ensures ReviewsOf(origin', w) == ReviewsOf(origin, w) + (if w == orderId then |batch| else 0) {
      ReviewsOfAppend(origin, orderId, |batch|, w);
    }
    assert ReviewsOf(origin, orderId) == 0;
    ExtendLinkedRows(orders, items, reviews, origin, orderId, batch);
    ExtendLinkedDistinct(items, reviews, origin, orderId, batch);
  }

  lemma {:induction false} ExtendLinkedRows(
    orders: seq<Order>, items: seq<OrderItem>, reviews: seq<Review>, origin: seq<int>,
    orderId: int, batch: seq<Review>)
    requires LinkedRows(orders, items, reviews, origin) && OriginSorted(origin)
    requires 1 <= orderId <= |orders|
    requires forall r :: 0 <= r < |origin| ==> origin[r] < orderId
    requires forall t :: 0 <= t < |batch| ==> ReviewOf(batch[t], orderId, orders, items)
    ensures LinkedRows(orders, items, reviews + batch, origin + Repeat(orderId, |batch|))
    ensures OriginSorted(origin + Repeat(orderId, |batch|))
  {
    var reviews', origin' := reviews + batch, origin + Repeat(orderId, |batch|);
    forall r | 0 <= r < |reviews'| ensures ReviewOf(reviews'[r], origin'[r], orders, items) {
      if r >= |reviews| {
        assert reviews'[r] == batch[r - |reviews|] && origin'[r] == orderId;
      } else {
        assert reviews'[r] == reviews[r] && origin'[r] == origin[r];
      }
    }
  }

  lemma {:induction false} ExtendLinkedDistinct(
    items: seq<OrderItem>, reviews: seq<Review>, origin: seq<int>,
    orderId: int, batch: seq<Review>)
    requires |origin| == |reviews| && LinkedDistinct(items, reviews, origin)
    requires forall r :: 0 <= r < |origin| ==> origin[r] < orderId
    requires Distinct(ProductIds(ItemsOf(items, orderId))) ==>
      forall t, u :: 0 <= t < u < |batch| ==> batch[t].productId != batch[u].productId
    ensures LinkedDistinct(items, reviews + batch, origin + Repeat(orderId, |batch|))
  {
    var reviews', origin' := reviews + batch, origin + Repeat(orderId, |batch|);
    forall r1, r2 | 0 <= r1 < r2 < |reviews'| && origin'[r1] == origin'[r2]
      && Distinct(ProductIds(ItemsOf(items, origin'[r1])))
      ensures reviews'[r1].productId != reviews'[r2].productId
    {
      if r2 < |reviews| {
        assert reviews'[r1] == reviews[r1] && reviews'[r2] == reviews[r2];
        assert origin'[r1] == origin[r1] && origin'[r2] == origin[r2];
      } else if r1 >= |reviews| {
        assert reviews'[r1] == batch[r1 - |reviews|] && reviews'[r2] == batch[r2 - |reviews|];
        assert origin'[r1] == orderId;
      }
    }
  }

  /** A linked review names its order, and a line item of that order carries the
      review's product; returns that line item's position in the table. */
  lemma {:induction false} LinkedReviewLine(
    orders: seq<Order>, items: seq<OrderItem>, reviews: seq<Review>, origin: seq<int>, r: nat)
    returns (j: nat)
    requires LinkedRows(orders, items, reviews, origin) && r < |reviews|
    ensures 1 <= origin[r] <= |orders|
    ensures LinkedTo(reviews[r], orders[origin[r] - 1], ItemsOf(items, origin[r]))
    ensures j < |items| && items[j].orderId == origin[r]
    ensures items[j].productId == reviews[r].productId
  {
    assert ReviewOf(reviews[r], origin[r], orders, items);
    var lines := ItemsOf(items, origin[r]);
    var t :| 0 <= t < |lines| && ProductIds(lines)[t] == reviews[r].productId;
    ItemsOfMembers(items, origin[r], lines[t]);
    j :| 0 <= j < |items| && items[j] == lines[t];
  }

  /** The reviews the draws produce for one order: one per chosen product, ids counting
      up from `firstId`, by the order's customer, dated within 30 days after the order. */
  function OrderReviews(order: Order, chosen: seq<int>, draws: seq<ReviewDraw>, firstId: int)
    : (batch: seq<Review>)
    requires |draws| >= |chosen|
    ensures |batch| == |chosen|
    ensures forall t :: 0 <= t < |batch| ==>
      && batch[t].reviewId == firstId + t
      && batch[t].productId == chosen[t]
      && batch[t].customerId == order.customerId
      && order.orderDate <= batch[t].reviewDate <= order.orderDate + REVIEW_WINDOW_DAYS
      && ReviewFits(batch[t])
  {
    seq(|chosen|, t requires 0 <= t < |chosen| =>
      NewReview(firstId + t, chosen[t], order.customerId, draws[t],
                order.orderDate, order.orderDate + REVIEW_WINDOW_DAYS))
  }

  /** The loop that writes the reviews of one order (lines 153-180). */
  method ReviewOrderedProducts(
    order: Order, chosen: seq<int>, draws: seq<ReviewDraw>, firstId: int)
    returns (batch: seq<Review>, nextId: int)
    requires |draws| >= |chosen|
    ensures batch == OrderReviews(order, chosen, draws, firstId)
    ensures nextId == firstId + |chosen|
  {
    batch, nextId := [], firstId;
    for t := 0 to |chosen|
      invariant |batch| == t && nextId == firstId + t
      invariant forall u :: 0 <= u < t ==>
        batch[u] == NewReview(firstId + u, chosen[u], order.customerId, draws[u],
                              order.orderDate, order.orderDate + REVIEW_WINDOW_DAYS)
    {
      var review := NewReview(nextId, chosen[t], order.customerId, draws[t],
                              order.orderDate, order.orderDate + REVIEW_WINDOW_DAYS);
      batch := batch + [review];
      nextId := nextId + 1;
    }
  }

  /** The reviews of one order are the ones its draws produce: none unless the order was
      drawn as reviewed; otherwise `randint(1, min(2, #items))` of them, of the products
      `random.sample` picks from the order's line items, each written from its own draw. */
  ghost predicate BatchFollowsDraw(batch: seq<Review>, order: Order, lines: seq<OrderItem>, d: LinkedDraw) {
    if !d.reviewed then batch == []
    else
      && 1 <= |lines| && EnoughReviewDraws(d)
      && |batch| == Pick(1, Min(MAX_REVIEWS_PER_ORDER, |lines|), d.count)
      && batch == OrderReviews(order, Sample(ProductIds(lines), |batch|, d.sample), d.reviews, batch[0].reviewId)
  }

  /** The reviews the draws produce for an order are at most min(2, #items) valid reviews
      of the order's products by its customer, of distinct products when the order's
      products are distinct. */
  lemma {:induction false} FollowingBatchLinked(batch: seq<Review>, order: Order, lines: seq<OrderItem>, d: LinkedDraw)
    requires BatchFollowsDraw(batch, order, lines, d)
    ensures |batch| <= Min(MAX_REVIEWS_PER_ORDER, |lines|)
    ensures forall t :: 0 <= t < |batch| ==> LinkedTo(batch[t], order, lines)
    ensures Distinct(ProductIds(lines)) ==>
      forall t, u :: 0 <= t < u < |batch| ==> batch[t].productId != batch[u].productId
  {
    if d.reviewed {
      var pool := ProductIds(lines);
      SampleFromPool(pool, |batch|, d.sample);
      if Distinct(pool) {
        SampleDistinct(pool, |batch|, d.sample);
      }
    }
  }

  /** The reviews of one reviewed order (lines 142-180): the order's row is looked up,
      1 to min(2, #items) of its products are sampled, and each gets a review. */
  method ReviewOrder(
    orders: seq<Order>, items: seq<OrderItem>, orderId: int, d: LinkedDraw, firstId: int)
    returns (batch: seq<Review>, nextId: int)
    requires 1 <= orderId <= |orders|
    requires forall o :: 0 <= o < |orders| ==> orders[o].orderId == o + 1
    requires |ItemsOf(items, orderId)| >= 1 && EnoughReviewDraws(d)
    ensures |batch| == Pick(1, Min(MAX_REVIEWS_PER_ORDER, |ItemsOf(items, orderId)|), d.count)
    ensures nextId == firstId + |batch|
    ensures batch == OrderReviews(
      orders[orderId - 1], Sample(ProductIds(ItemsOf(items, orderId)), |batch|, d.sample), d.reviews, firstId)
  {
    var row := FirstRow(orders, OrderKey, orderId);
    FirstRowOfSequential(orders, OrderKey, orderId);
    var order := orders[row.value];
    var lines := ItemsOf(items, orderId);
    var numReviews := Pick(1, Min(MAX_REVIEWS_PER_ORDER, |lines|), d.count);
    var chosen := Sample(ProductIds(lines), numReviews, d.sample);
    batch, nextId := ReviewOrderedProducts(order, chosen, d.reviews, firstId);
  }

  /** The reviews written for order `orderId`, in table order. */
  ghost function ReviewsFor(reviews: seq<Review>, origin: seq<int>, orderId: int): seq<Review>
    requires |origin| == |reviews|
    decreases |reviews|
  {
    if reviews == [] then []
    else
      var n := |reviews| - 1;
      ReviewsFor(reviews[..n], origin[..n], orderId) + (if origin[n] == orderId then [reviews[n]] else [])
  }

  /** An order's reviews are as many as `origin` names that order. */
  lemma {:induction false} ReviewsForCount(reviews: seq<Review>, origin: seq<int>, orderId: int)
    requires |origin| == |reviews|
    ensures |ReviewsFor(reviews, origin, orderId)| == ReviewsOf(origin, orderId)
    decreases |reviews|
  {
    if reviews != [] {
      var n := |reviews| - 1;
      assert origin == origin[..n] + [origin[n]];
      ReviewsForCount(reviews[..n], origin[..n], orderId);
    }
  }

  /** Appending the reviews of order `orderId` adds them to that order's reviews only. */
  lemma {:induction false} ReviewsForAppend(
    reviews: seq<Review>, origin: seq<int>, orderId: int, batch: seq<Review>, w: int)
    requires |origin| == |reviews|
    ensures ReviewsFor(reviews + batch, origin + Repeat(orderId, |batch|), w)
         == ReviewsFor(reviews, origin, w) + (if w == orderId then batch else [])
    decreases |batch|
  {
    if batch == [] {
      assert reviews + batch == reviews;
      assert origin + Repeat(orderId, 0) == origin;
    } else {
      var m := |batch| - 1;
      var reviews', origin' := reviews + batch, origin + Repeat(orderId, |batch|);
      var n := |reviews'| - 1;
      assert reviews'[..n] == reviews + batch[..m];
      assert origin'[..n] == origin + Repeat(orderId, m);
      var last := if orderId == w then [batch[m]] else [];
      calc {
        ReviewsFor(reviews', origin', w);
        ReviewsFor(reviews'[..n], origin'[..n], w) + last;
        ReviewsFor(reviews + batch[..m], origin + Repeat(orderId, m), w) + last;
        { ReviewsForAppend(reviews, origin, orderId, batch[..m], w); }
        ReviewsFor(reviews, origin, w) + (if w == orderId then batch[..m] else []) + last;
        { assert batch == batch[..m] + [batch[m]]; }
        ReviewsFor(reviews, origin, w) + (if w == orderId then batch else []);
      }
    }
  }

  /** Each of the first `n` orders has exactly the reviews its draws produce. */
  ghost predicate LinkedFollowDraws(
    orders: seq<Order>, items: seq<OrderItem>, draws: seq<LinkedDraw>,
    reviews: seq<Review>, origin: seq<int>, n: int)
  {
    && |origin| == |reviews| && 0 <= n <= |orders| && n <= |draws|
    && forall o :: 0 <= o < n ==>
      BatchFollowsDraw(ReviewsFor(reviews, origin, o + 1), orders[o], ItemsOf(items, o + 1), draws[o])
  }

  /** Appending the reviews of the next order, produced by its draws, extends the
      per-order correspondence by that order. */
  lemma {:induction false} ExtendFollowDraws(
    orders: seq<Order>, items: seq<OrderItem>, draws: seq<LinkedDraw>,
    reviews: seq<Review>, origin: seq<int>, orderId: int, batch: seq<Review>)
    requires 1 <= orderId <= |orders| && orderId <= |draws|
    requires LinkedFollowDraws(orders, items, draws, reviews, origin, orderId - 1)
    requires forall r :: 0 <= r < |origin| ==> origin[r] < orderId
    requires BatchFollowsDraw(batch, orders[orderId - 1], ItemsOf(items, orderId), draws[orderId - 1])
    ensures LinkedFollowDraws(orders, items, draws, reviews + batch, origin + Repeat(orderId, |batch|), orderId)
  {
    var reviews', origin' := reviews + batch, origin + Repeat(orderId, |batch|);
    forall o | 0 <= o < orderId
      ensures BatchFollowsDraw(ReviewsFor(reviews', origin', o + 1), orders[o], ItemsOf(items, o + 1), draws[o])
    {
      ReviewsForAppend(reviews, origin, orderId, batch, o + 1);
      if o + 1 == orderId {
        assert ReviewsOf(origin, orderId) == 0;
        ReviewsForCount(reviews, origin, orderId);
        assert ReviewsFor(reviews', origin', o + 1) == batch;
      } else {
        assert ReviewsFor(reviews', origin', o + 1) == ReviewsFor(reviews, origin, o + 1);
      }
    }
  }

  /** Among the first `n` orders, exactly the ones drawn as reviewed have reviews. */
  ghost predicate CountsFollowDraws(draws: seq<LinkedDraw>, origin: seq<int>, n: int)
    requires n <= |draws|
  {
    forall o :: 0 <= o < n ==>
      if draws[o].reviewed then 1 <= ReviewsOf(origin, o + 1) else ReviewsOf(origin, o + 1) == 0
  }

  /** Appending the reviews of order `orderId` (none unless it was drawn as reviewed)
      extends the per-order counts by one order. */
  lemma {:induction false} ExtendCounts(draws: seq<LinkedDraw>, origin: seq<int>, orderId: int, n: nat)
    requires 1 <= orderId <= |draws|
    requires CountsFollowDraws(draws, origin, orderId - 1)
    requires forall r :: 0 <= r < |origin| ==> origin[r] < orderId
    requires if draws[orderId - 1].reviewed then n >= 1 else n == 0
    ensures CountsFollowDraws(draws, origin + Repeat(orderId, n), orderId)
    ensures forall r :: 0 <= r < |origin| + n ==> (origin + Repeat(orderId, n))[r] <= orderId
  {
    forall w ensures ReviewsOf(origin + Repeat(orderId, n), w)
      == ReviewsOf(origin, w) + (if w == orderId then n else 0)
    {
      ReviewsOfAppend(origin, orderId, n, w);
    }
    assert ReviewsOf(origin, orderId) == 0;
  }

  /** What holds after the orders before `orderId` are processed. */
  ghost predicate LinkedSoFar(
    orders: seq<Order>, items: seq<OrderItem>, draws: seq<LinkedDraw>,
    reviews: seq<Review>, nextReviewId: int, origin: seq<int>, orderId: int)
  {
    && |draws| == |orders| && 1 <= orderId <= |orders| + 1
    && ReviewIdsSequential(reviews) && nextReviewId == |reviews| + 1
    && LinkedReviewsValid(orders, items, reviews, origin)
    && (forall r :: 0 <= r < |origin| ==> origin[r] < orderId)
    && CountsFollowDraws(draws, origin, orderId - 1)
    && LinkedFollowDraws(orders, items, draws, reviews, origin, orderId - 1)
    && |reviews| <= MAX_REVIEWS_PER_ORDER * (orderId - 1)
  }

  /** Appending the reviews order `orderId` draws moves the phase on by one order. */
  lemma {:induction false} ExtendLinkedPhase(
    orders: seq<Order>, items: seq<OrderItem>, draws: seq<LinkedDraw>,
    reviews: seq<Review>, nextReviewId: int, origin: seq<int>, orderId: int, batch: seq<Review>)
    requires LinkedSoFar(orders, items, draws, reviews, nextReviewId, origin, orderId)
    requires orderId <= |orders|
    requires BatchFollowsDraw(batch, orders[orderId - 1], ItemsOf(items, orderId), draws[orderId - 1])
    requires batch != [] ==> batch[0].reviewId == nextReviewId
    ensures LinkedSoFar(orders, items, draws, reviews + batch, nextReviewId + |batch|,
                        origin + Repeat(orderId, |batch|), orderId + 1)
  {
    var d := draws[orderId - 1];
    FollowingBatchLinked(batch, orders[orderId - 1], ItemsOf(items, orderId), d);
    ExtendLinked(orders, items, reviews, origin, orderId, batch);
    ExtendCounts(draws, origin, orderId, |batch|);
    ExtendFollowDraws(orders, items, draws, reviews, origin, orderId, batch);
    var reviews' := reviews + batch;
    forall r | 0 <= r < |reviews'| ensures reviews'[r].reviewId == r + 1 {
      if r >= |reviews| {
        assert reviews'[r] == batch[r - |reviews|];
      } else {
        assert reviews'[r] == reviews[r];
      }
    }
  }

  /** The order-linked phase (lines 136-180).  `origin` records, for the proof only,
      which order each review was written for. */
  method GenerateOrderReviews(orders: seq<Order>, items: seq<OrderItem>, draws: seq<LinkedDraw>)
    returns (reviews: seq<Review>, nextReviewId: int, ghost origin: seq<int>)
    requires |draws| == |orders|
    requires forall o :: 0 <= o < |orders| ==> EnoughReviewDraws(draws[o])
    requires forall o :: 0 <= o < |orders| ==> orders[o].orderId == o + 1
    requires forall o :: 0 <= o < |orders| && draws[o].reviewed ==> |ItemsOf(items, o + 1)| >= 1
    ensures ReviewIdsSequential(reviews) && nextReviewId == |reviews| + 1
    ensures LinkedReviewsValid(orders, items, reviews, origin)
    ensures CountsFollowDraws(draws, origin, |orders|)
    ensures LinkedFollowDraws(orders, items, draws, reviews, origin, |orders|)
    ensures |reviews| <= MAX_REVIEWS_PER_ORDER * |orders|
  {
    reviews, nextReviewId, origin := [], 1, [];
    var orderId := 1;
    while orderId <= |orders|
      invariant LinkedSoFar(orders, items, draws, reviews, nextReviewId, origin, orderId)
    {
      var d := draws[orderId - 1];
      var batch, next := [], nextReviewId;
      if d.reviewed {
        batch, next := ReviewOrder(orders, items, orderId, d, nextReviewId);
      }
      ExtendLinkedPhase(orders, items, draws, reviews, nextReviewId, origin, orderId, batch);
      reviews, nextReviewId, origin := reviews + batch, next, origin + Repeat(orderId, |batch|);
      orderId := orderId + 1;
    }
  }

  // ------------------------------------------------------------------
  // Standalone phase

  /** Some review already has this (product, customer) pair. */
  predicate HasPair(reviews: seq<Review>, productId: int, customerId: int) {
    exists i :: 0 <= i < |reviews| && reviews[i].productId == productId && reviews[i].customerId == customerId
  }

  /** Line 188: the reviews that already have the candidate's pair. */
  method FindExisting(reviews: seq<Review>, productId: int, customerId: int)
    returns (existing: seq<Review>)
    ensures forall x :: x in existing ==>
      x in reviews && x.productId == productId && x.customerId == customerId
    ensures existing == [] <==> !HasPair(reviews, productId, customerId)
  {
    existing := [];
    for i := 0 to |reviews|
      invariant forall x :: x in existing ==>
        x in reviews && x.productId == productId && x.customerId == customerId
      invariant existing == [] <==> !HasPair(reviews[..i], productId, customerId)
    {
      if reviews[i].productId == productId && reviews[i].customerId == customerId {
        existing := existing + [reviews[i]];
      }
      assert reviews[..i + 1] == reviews[..i] + [reviews[i]];
    }
    assert reviews[..|reviews|] == reviews;
  }

  /** The standalone phase as a definition: candidates in order, each appended (with the
      next id) unless its pair is already reviewed. */
  function StandaloneReviews(
    reviews: seq<Review>, draws: seq<StandaloneDraw>, numProducts: nat, numCustomers: nat,
    today: int): seq<Review>
    requires numProducts >= 1 && numCustomers >= 1
    decreases |draws|
  {
    if draws == [] then reviews
    else
      var d := draws[0];
      var productId := Pick(1, numProducts, d.product);
      var customerId := Pick(1, numCustomers, d.customer);
      var reviews' :=
        if HasPair(reviews, productId, customerId) then reviews
        else reviews + [NewReview(|reviews| + 1, productId, customerId, d.review,
                                  today - ORDER_WINDOW_DAYS, today)];
      StandaloneReviews(reviews', draws[1..], numProducts, numCustomers, today)
  }

  /** Reviews from position `from` on: existing product and customer, dated in the order
      window, following the rating rules, and with a pair no earlier review has. */
  ghost predicate StandaloneValid(
    reviews: seq<Review>, from: nat, numProducts: nat, numCustomers: nat, today: int)
  {
    && from <= |reviews|
    && forall b :: from <= b < |reviews| ==>
         && 1 <= reviews[b].productId <= numProducts
         && 1 <= reviews[b].customerId <= numCustomers
         && today - ORDER_WINDOW_DAYS <= reviews[b].reviewDate <= today
         && ReviewFits(reviews[b])
         && !HasPair(reviews[..b], reviews[b].productId, reviews[b].customerId)
  }

  /** The standalone phase keeps the earlier reviews, adds at most one review per
      candidate, keeps the ids sequential, and every review it adds is valid and has a
      pair no earlier review has. */
  lemma {:induction false} StandaloneReviewsValid(
    reviews: seq<Review>, from: nat, draws: seq<StandaloneDraw>, numProducts: nat,
    numCustomers: nat, today: int)
    requires numProducts >= 1 && numCustomers >= 1
    requires ReviewIdsSequential(reviews)
    requires StandaloneValid(reviews, from, numProducts, numCustomers, today)
    ensures var all := StandaloneReviews(reviews, draws, numProducts, numCustomers, today);
      && |reviews| <= |all| <= |reviews| + |draws|
      && all[..|reviews|] == reviews
      && ReviewIdsSequential(all)
      && StandaloneValid(all, from, numProducts, numCustomers, today)
    decreases |draws|
  {
    if draws != [] {
      var d := draws[0];
      var productId := Pick(1, numProducts, d.product);
      var customerId := Pick(1, numCustomers, d.customer);
      var reviews' := reviews;
      if !HasPair(reviews, productId, customerId) {
        var review := NewReview(|reviews| + 1, productId, customerId, d.review,
                                today - ORDER_WINDOW_DAYS, today);
        reviews' := reviews + [review];
        assert reviews'[..|reviews|] == reviews;
        assert StandaloneValid(reviews', from, numProducts, numCustomers, today) by {
          forall b | from <= b < |reviews'|
            ensures !HasPair(reviews'[..b], reviews'[b].productId, reviews'[b].customerId)
          {
            if b < |reviews| {
              assert reviews'[..b] == reviews[..b] && reviews'[b] == reviews[b];
            }
          }
        }
      }
      assert reviews' == if HasPair(reviews, productId, customerId) then reviews
        else reviews + [NewReview(|reviews| + 1, productId, customerId, d.review,
                                  today - ORDER_WINDOW_DAYS, today)];
      StandaloneReviewsValid(reviews', from, draws[1..], numProducts, numCustomers, today);
      var all := StandaloneReviews(reviews', draws[1..], numProducts, numCustomers, today);
      assert all[..|reviews|] == all[..|reviews'|][..|reviews|];
    }
  }

  /** After the standalone phase every candidate's pair is reviewed: a candidate is
      skipped only because its pair was already there. */
  lemma {:induction false} StandaloneCoversCandidates(
    reviews: seq<Review>, draws: seq<StandaloneDraw>, numProducts: nat, numCustomers: nat,
    today: int, t: nat)
    requires numProducts >= 1 && numCustomers >= 1
    requires t < |draws|
    ensures HasPair(StandaloneReviews(reviews, draws, numProducts, numCustomers, today),
                    Pick(1, numProducts, draws[t].product), Pick(1, numCustomers, draws[t].customer))
    decreases |draws|
  {
    var d := draws[0];
    var productId := Pick(1, numProducts, d.product);
    var customerId := Pick(1, numCustomers, d.customer);
    var reviews' :=
      if HasPair(reviews, productId, customerId) then reviews
      else reviews + [NewReview(|reviews| + 1, productId, customerId, d.review,
                                today - ORDER_WINDOW_DAYS, today)];
    var all := StandaloneReviews(reviews', draws[1..], numProducts, numCustomers, today);
    if t == 0 {
      assert HasPair(reviews', productId, customerId) by {
        if !HasPair(reviews, productId, customerId) {
          assert reviews'[|reviews|].productId == productId;
        }
      }
      StandaloneKeepsPairs(reviews', draws[1..], numProducts, numCustomers, today, productId, customerId);
    } else {
      StandaloneCoversCandidates(reviews', draws[1..], numProducts, numCustomers, today, t - 1);
      assert draws[1..][t - 1] == draws[t];
    }
  }

  /** The standalone phase only appends, so a pair reviewed before stays reviewed. */
  lemma {:induction false} StandaloneKeepsPairs(
    reviews: seq<Review>, draws: seq<StandaloneDraw>, numProducts: nat, numCustomers: nat,
    today: int, productId: int, customerId: int)
    requires numProducts >= 1 && numCustomers >= 1
    requires HasPair(reviews, productId, customerId)
    ensures HasPair(StandaloneReviews(reviews, draws, numProducts, numCustomers, today),
                    productId, customerId)
    decreases |draws|
  {
    if draws != [] {
      var d := draws[0];
      var p := Pick(1, numProducts, d.product);
      var c := Pick(1, numCustomers, d.customer);
      var reviews' :=
        if HasPair(reviews, p, c) then reviews
        else reviews + [NewReview(|reviews| + 1, p, c, d.review, today - ORDER_WINDOW_DAYS, today)];
      var i :| 0 <= i < |reviews| && reviews[i].productId == productId && reviews[i].customerId == customerId;
      assert reviews'[i] == reviews[i];
      StandaloneKeepsPairs(reviews', draws[1..], numProducts, numCustomers, today, productId, customerId);
    }
  }

  /** The standalone loop (lines 183-209). */
  method AddStandaloneReviews(
    reviews: seq<Review>, nextReviewId: int, numProducts: nat, numCustomers: nat, today: int,
    draws: seq<StandaloneDraw>)
    returns (all: seq<Review>, nextId: int)
    requires numProducts >= 1 && numCustomers >= 1
    requires |draws| == STANDALONE_REVIEWS
    requires nextReviewId == |reviews| + 1
    ensures all == StandaloneReviews(reviews, draws, numProducts, numCustomers, today)
    ensures nextId == |all| + 1
  {
    all, nextId := reviews, nextReviewId;
    for t := 0 to |draws|
      invariant nextId == |all| + 1
      invariant StandaloneReviews(all, draws[t..], numProducts, numCustomers, today)
             == StandaloneReviews(reviews, draws, numProducts, numCustomers, today)
    {
      var d := draws[t];
      var productId := Pick(1, numProducts, d.product);
      var customerId := Pick(1, numCustomers, d.customer);
      var existing := FindExisting(all, productId, customerId);
      assert draws[t..][1..] == draws[t + 1..];
      if existing == [] {
        var review := NewReview(nextId, productId, customerId, d.review,
                                today - ORDER_WINDOW_DAYS, today);
        all := all + [review];
        nextId := nextId + 1;
      }
    }
    assert draws[|draws|..] == [];
  }
}
